/** The inputs the walker reads: the selection tree of a GraphQL query, the
    Strawberry type definitions, and the Django model metadata.  The source
    reaches all of these through framework objects; here they are plain data,
    and the conversions the framework performs (camel-casing field names,
    resolving the possible types of an interface or union) are functions given
    with the environment. */
module Schema {
  import opened Wrappers
  import Q = Queries
  import H = Hints

  /** A GraphQL type, identified by name. */
  type TypeName = string

  /** One node of a selection set. */
  datatype Selection =
    | Field(name: string, arguments: seq<string>, selections: seq<Selection>)
    | FragmentSpread(name: string, selections: seq<Selection>)
    | InlineFragment(typeCondition: TypeName, selections: seq<Selection>)

  /** The declared type of a field: a named type under list and non-null
      wrappers (each wrapper has an `of_type`). */
  datatype TypeRef = Named(name: TypeName) | ListOf(ofType: TypeRef) | NonNull(ofType: TypeRef)

  /** The named type at the bottom of the wrappers. */
  function NamedType(t: TypeRef): TypeName
  {
    match t
    case Named(n) => n
    case ListOf(inner) => NamedType(inner)
    case NonNull(inner) => NamedType(inner)
  }

  /** `_get_type`: follow `of_type` while there is one. */
  method GetType(fieldType: TypeRef) returns (name: TypeName)
    ensures name == NamedType(fieldType)
    ensures fieldType.Named? ==> name == fieldType.name
  {
    var t := fieldType;
    while !t.Named?
      invariant NamedType(t) == NamedType(fieldType)
      decreases t
    {
      t := t.ofType;
    }
    name := t.name;
  }

  /** A field of a Strawberry type definition, with the hints attached to it
      (its `optimization_hints` attribute, when there is one). */
  datatype FieldDef = FieldDef(name: string, fieldType: TypeRef, hints: Option<H.OptimizationHints>)

  /** A Strawberry object type: its field definitions in declaration order and
      the Django model it was declared for, if any. */
  datatype ObjectType = ObjectType(fields: seq<FieldDef>, model: Option<Q.ModelName>)

  /** How a Django model field relates to other models. */
  datatype Relation =
    | ToOne                                  // many_to_one or one_to_one
    | ToMany(relatedModel: Q.ModelName,      // one_to_many or many_to_many;
             reverseForeignKey: Option<string>) // Some(fk.name) for a ManyToOneRel
    | Column                                 // not is_relation
    | OtherRelation                          // a relation with none of the four cardinalities

  /** A Django model field: its name, its column name (`get_attname()`),
      whether it is a `ForeignKey` (one-to-one fields included), and its
      relation kind. */
  datatype ModelField = ModelField(name: string, attname: string, isForeignKey: bool, relation: Relation)

  /** A Django model: `fields` is what `_meta.get_field` finds (a foreign key
      under both its name and its attname, reverse relations under their query
      names); `related` is what the fallback finds, the `related` attribute of
      a descriptor on the model class. */
  datatype Model = Model(fields: map<string, ModelField>, related: map<string, ModelField>)

  /** Everything the walker consults besides the selections. */
  datatype Env = Env(
    objectType: TypeName -> ObjectType,          // a type's definition, LazyType resolved
    possibleTypes: TypeName -> seq<TypeName>,    // `_get_possible_types`
    models: Q.ModelName -> Model,
    toCamelCase: string -> string,
    disableAbortOnly: bool)                      // the optimizer option
}
