# ApiFramework entity graph and graph-driven serializer, modelled in Dafny

This project models the core of the ApiFramework PHP library and proves
properties of the model:

- **Type-candidate merger** (`Descriptor.SumPropertyTypes`). It folds the
  type candidates PHP reflection reports for a property into one type. Each
  attribute comes from the first candidate that has one.
- **Graph descriptor builder** (`Descriptor.GenerateGraph`). It turns a list
  of entity classes into a traversal graph:
  - one vertex per permitted class, plus a shared leaf vertex `value`;
  - per property, at most one edge to the leaf, classified as a relation,
    a collection or a plain value; a relation or collection whose target
    the policy rejects gets none.
- **Permission policy** (`Permission`). This is the default provider: an
  allow-list of class names that both queries test membership in.
- **Graph-driven serializer** (`GraphSerializer`).
  - `normalize` walks an object's properties. It takes the first edge of the
    matching name. It spends a depth budget on relations and collections. It
    returns a placeholder for an object already on the path, or for one past
    the budget.
  - `denormalize` builds a fresh instance and calls its setters for the input
    keys that name an edge.
- **Validation exception** (`Validation`). It builds one `Entity.path:message`
  line per constraint violation, with class-level messages prefixed
  `CLASS: `.

Each loop of the PHP code is a Dafny `method` with a loop, proved equal to a
specification function. The properties are then proved about those
functions:

- `descriptor_props.dfy` holds the descriptor's properties.
- `serializer_props.dfy` holds the serializer's properties.
- `validation.dfy` and `permission.dfy` each hold their own.

### How the model represents the system

- **Classes.** A PHP class is its name (a string). An object is an `Obj`: a
  class and a map from property names to what its getters return. A getter
  exists exactly when the property is in that map. A setter exists when
  `Runtime.hasSetter` says so. Calling a setter writes the map.
- **Heap.** Live objects sit in a `Heap` map from ids to objects. New objects
  get the next free id. Object references inside values are `Ref(id)`.
- **External collaborators are parameters.**
  - The metadata source (property lists, type candidates, entity annotation
    names, camel-casing) is `Descriptor.Metadata`.
  - The permission provider interface is `Permission.Policy`.
  - The rest of the serializer chain, the constructors' defaults, `getId`
    and string conversion are `GraphSerializer.Runtime`.
  - The traversal graph is passed to normalize and denormalize directly.
- **Circular references.** The serializer checks for them with a limit of 1,
  and the context it counts in is passed by value. So the check is modelled
  as membership in the set of objects on the path from the root
  (`visited`).
- **Depth budget.** It is `Option<int>`, where `None` means unbounded.

### Behaviours of the code worth knowing

- **Rejected relations and collections get no edge.** When the policy
  rejects the target class of a relation or of a collection's elements,
  the property gets no edge at all (Entity/Descriptor.php:99-125), so
  neither normalize nor denormalize ever looks at it.
  `DescriptorProperties.RejectingPolicyValueEdgesOnly` states the
  consequence.
- **`nullable` and `collection` stay false.** `sumPropertyTypes` starts
  these at `false` and updates them with `??`, which never replaces a
  non-null value (Entity/Descriptor.php:144-154). So the merged type has
  both false whatever the candidates say, and the collection branch of the
  builder can fire only for the builtin `array`
  (`MergeTypesFirstWins`, `CollectionEdgeOnlyForArrays`).
- **A spent budget replaces the whole object.** When normalize meets a
  relation or collection property with a depth budget `<= 0`, it returns
  the placeholder for the object itself and drops the fields it has
  already collected (Service/Normalizer/GraphSerializer.php:95-100;
  `SpentBudgetGivesPlaceholder`).
- **An unsupported object normalizes to `null`.** Normalize returns
  `null`, not an error, for an object whose class is not a vertex or when
  there is no graph (`NormalizeOutcomes`).
- **Value fields also go through the chain.** A property with a value edge
  is normalized by the serializer chain with the budget unchanged, so an
  object held in a value field is still normalized when some normalizer
  supports it (`NormalizedArray`).
- **Collections do not denormalize element by element.** For a collection
  edge, denormalize hands the whole input list to the chain with the
  element class (Service/Normalizer/GraphSerializer.php:168-175). This
  denormalizer supports a non-empty list, but its integer keys name no
  edge, so the result is one blank element object
  (`ListBecomesOneBlankObject`).

### Duplicate vertices

The graph library refuses to create a vertex whose id already exists.
`GenerateGraph` therefore returns `Failure(DuplicateVertex)` in two cases:
a permitted class appears twice in the list, or a permitted class is named
`value`. An unpermitted class that happens to be named `value` gets its
edges on the leaf vertex, as the code's `hasVertex` lookup does. There the
model's leaf holds only the edges it starts; Fhaculty's `getEdges()` also
returns the edges that end at the leaf, so the library's leaf would list
every other edge of the graph as well.

## Model

| member | source | states |
|---|---|---|
| Descriptor.SumPropertyTypes | Entity/Descriptor.php:140-170 | the loop computes `MergeTypes` of the candidates; a merged type always has a builtin type, and its `nullable` and `collection` are false |
| DescriptorProperties.MergeTypesNone | Entity/Descriptor.php:142-169 | the merge gives null exactly when there are no candidates or none has a builtin type |
| DescriptorProperties.MergeTypesFirstWins | Entity/Descriptor.php:150-166 | builtin type, class name, key type and value type of the merge each come from the first candidate that has one; the two booleans are false |
| DescriptorProperties.MergeFirstClassWins | Entity/Descriptor.php:153 | of two candidates with class names, the first one's class name wins |
| DescriptorProperties.CollectionEdgeOnlyForArrays | Entity/Descriptor.php:112-118 | a collection edge is created only for a property whose merged builtin type is `array` |
| Descriptor.EdgeFor | Entity/Descriptor.php:99-133 | a class-typed property gets a relation edge to the leaf exactly when the policy permits its class; otherwise an `array` or collection type with a class-typed element gets a collection edge exactly when the policy permits the element class; every other property gets a value edge with no class; every edge carries the property name |
| Descriptor.DisplayName | Entity/Descriptor.php:84 | a class vertex is named by its entity annotation's name when there is one, and by the camel-cased class name otherwise |
| Descriptor.CreateVertices | Entity/Descriptor.php:72-87 | the first loop creates the leaf and one vertex per permitted class, named by its annotation or its camel-cased class name; it fails exactly on a duplicate vertex id |
| Descriptor.ClassifyProperty | Entity/Descriptor.php:95-133 | one turn of the property loop merges the property's type candidates and computes the edge `EdgeFor` gives for the merge, or none when the policy rejects the target |
| Descriptor.AddPropertyEdges | Entity/Descriptor.php:93-134 | the property loop appends each property's edge, in property order, to the class's vertex and changes nothing else |
| Descriptor.CreateEdges | Entity/Descriptor.php:90-136 | the second loop appends to each vertex the edges of every occurrence of its class in the list |
| Descriptor.GenerateGraph | Entity/Descriptor.php:69-138 | the graph has exactly the leaf and the permitted classes as vertices; each class vertex holds its name, its class and its properties' edges; it fails exactly when vertex ids would repeat |
| DescriptorProperties.PropertyEdgesNames | Entity/Descriptor.php:94-133 | the edges' names are the properties not dropped by the policy, in property order |
| DescriptorProperties.PropertyEdgesShape | Entity/Descriptor.php:102-131 | every edge targets the leaf, is named after a listed property, and is a value edge exactly when it has no class |
| DescriptorProperties.RejectingPolicyValueEdgesOnly | Entity/Descriptor.php:99-125 | under a policy that rejects every relation, only value edges are created |
| DescriptorProperties.OneEdgePerName | Entity/Descriptor.php:94-133 | distinct property names give edges with distinct names |
| DescriptorProperties.LookupFindsClassifiedEdge | Entity/Descriptor.php:94-133 | with distinct properties, the first-match lookup of a property finds exactly the edge the builder made for it |
| Graph.FirstEdgeNamed | Service/Normalizer/GraphSerializer.php:86-92 | the lookup finds an edge of the vertex with that name, and finds none exactly when no edge has it |
| Graph.FirstEdgeNamedIsFirst | Service/Normalizer/GraphSerializer.php:86-92 | the edge found is the earliest one with that name |
| GraphSerializer.FindEdge | Service/Normalizer/GraphSerializer.php:86-92 | the loop that visits every edge but keeps the first match computes `FirstEdgeNamed` |
| Permission.InArray | Entity/Permission/DefaultPermissionProvider.php:30 | the scan answers membership |
| Permission.DefaultPermissionProvider.IsPermitted | Entity/Permission/DefaultPermissionProvider.php:28-31 | a class is permitted iff it is on the allow-list |
| Permission.DefaultPermissionProvider.IsRelationPermitted | Entity/Permission/DefaultPermissionProvider.php:33-36 | a relation is permitted iff its target class is on the allow-list |
| Permission.DefaultPermissionProvider.AsPolicy | Entity/Permission/DefaultPermissionProvider.php:27-36 | the provider seen as a policy answers both queries as the provider does |
| Permission.DefaultProvider | Entity/Permission/DefaultPermissionProvider.php:14-25 | the provider built without arguments has the default allow-list |
| Permission.RelationIgnoresSource | Entity/Permission/DefaultPermissionProvider.php:33-36 | the relation query ignores the source class and the property |
| Permission.DefaultProviderPermits | Entity/Permission/DefaultPermissionProvider.php:14-31 | the default provider permits exactly `DateTimeInterface` and `DateInterval` |
| GraphSerializer.Normalize | Service/Normalizer/GraphSerializer.php:71-131 | the method computes `NormalizedObject`, including the early returns from inside the property loop |
| GraphSerializer.NormalizeField | Service/Normalizer/GraphSerializer.php:85-123 | one turn of the property loop computes `NormalizedField`: skip without an edge, the placeholder for a relation when the budget is spent, a missing-getter failure, or the entry for the value normalized one level down (relations) or at the same depth (values) |
| GraphSerializer.ChainNormalize | Service/Normalizer/GraphSerializer.php:112-122 | the chain call computes `NormalizedValue`: this normalizer for supported objects, the others for other objects, arrays element by element |
| SerializerProperties.NormalizeOutcomes | Service/Normalizer/GraphSerializer.php:71-131 | the placeholder for an object on the path; null without a graph or for a non-vertex class; otherwise an array, an error, or the placeholder, and the placeholder only when a depth budget is set |
| GraphSerializer.SupportsNormalization | Service/Normalizer/GraphSerializer.php:64-69 | only a live object, and only with a graph; given both, exactly when the object's class is a vertex |
| SerializerProperties.SupportedIsNotNull | Service/Normalizer/GraphSerializer.php:64-69 | an object that supportsNormalization accepts never normalizes to null |
| SerializerProperties.SupportedExactlyWhenNotNull | Service/Normalizer/GraphSerializer.php:64-131 | for an object not on the path, supportsNormalization accepts it exactly when normalize does not give null |
| SerializerProperties.NormalizedArray | Service/Normalizer/GraphSerializer.php:82-124 | the array has one distinct key per listed property with an edge; each entry is the getter's value normalized with budget `d-1` for a class edge and `d` for a value edge, with the object added to the path |
| SerializerProperties.FieldsWhenHalted | Service/Normalizer/GraphSerializer.php:95-100 | the property loop returns early only with an error or, when a budget is set, the placeholder |
| SerializerProperties.SpentBudgetGivesPlaceholder | Service/Normalizer/GraphSerializer.php:95-100 | with budget `<= 0`, an object with a relation or collection property becomes the placeholder (or an error), discarding fields already collected |
| SerializerProperties.SelfReferenceGivesPlaceholder | Service/Normalizer/GraphSerializer.php:76-127 | without a budget, an object whose relation refers to itself gets the placeholder under that property |
| SerializerProperties.PutLookup | Service/Normalizer/GraphSerializer.php:112-122 | writing a result key makes it hold the new value, leaves other keys alone and keeps keys distinct |
| GraphSerializer.CircularReferenceHandler | Service/Normalizer/GraphSerializer.php:188-203 | the placeholder starts with the class name, and is the bare class name exactly when the object has neither `getId` nor a string conversion |
| SerializerProperties.PlaceholderForms | Service/Normalizer/GraphSerializer.php:190-197 | with `getId`, `Class(#id)` for a truthy id and `Class(#null)` for a falsy one; without it, `Class(#text)` for a Stringable object; the bare class name otherwise |
| SerializerProperties.PlaceholderPrefersId | Service/Normalizer/GraphSerializer.php:191-194 | when the object has `getId`, its string conversion does not change the placeholder |
| SerializerProperties.PlaceholderIntId | Service/Normalizer/GraphSerializer.php:192-193 | a truthy integer id appears as `Class(#id)`, in decimal that reads back as the id |
| GraphSerializer.Denormalized | Service/Normalizer/GraphSerializer.php:139-185 | null for a non-vertex class with the heap unchanged; otherwise a fresh object of that class at the next free id; no existing object changes |
| GraphSerializer.DenormalizedEntries | Service/Normalizer/GraphSerializer.php:151-181 | the entry loop keeps the heap well formed, keeps the object's class and changes no other existing object |
| GraphSerializer.Denormalize | Service/Normalizer/GraphSerializer.php:139-185 | the method computes `Denormalized`, including the early return on an error |
| GraphSerializer.DenormalizeEntry | Service/Normalizer/GraphSerializer.php:152-180 | one turn of the entry loop computes `DenormalizedEntry` |
| GraphSerializer.ChainDenormalize | Service/Normalizer/GraphSerializer.php:168-175 | the chain call computes `DenormalizedValue`: this denormalizer for a non-empty array into a vertex class, the others otherwise |
| GraphSerializer.SupportsDenormalization | Service/Normalizer/GraphSerializer.php:133-138 | only a non-empty array, and only with a graph; given both, exactly when the target class is a vertex |
| SerializerProperties.ChainDenormalizeOutcomes | Service/Normalizer/GraphSerializer.php:133-185 | supported data becomes a fresh object of the requested class at the next free id; any other data, an empty array included, goes to the other denormalizers and leaves the heap as it was |
| SerializerProperties.ListBecomesOneBlankObject | Service/Normalizer/GraphSerializer.php:149-175 | a non-empty list with integer keys, denormalized into a vertex class, becomes one fresh object holding only its defaults |
| SerializerProperties.UnknownKeysIgnored | Service/Normalizer/GraphSerializer.php:151-160 | dropping the input entries whose key names no edge does not change the result or the heap |
| SerializerProperties.DenormalizeAssigns | Service/Normalizer/GraphSerializer.php:160-179 | for the last entry of a key with an edge and a setter: a value edge assigns the raw value; a class edge assigns null as is and otherwise the chain's denormalization of the value on the heap of that turn, and the new object keeps the nested object that recursion built |
| SerializerProperties.MissingSetterFails | Service/Normalizer/GraphSerializer.php:177-179 | an entry with an edge but no setter makes denormalize fail |
| SerializerProperties.AbsentKeepsDefault | Service/Normalizer/GraphSerializer.php:149-181 | a field no input key names keeps the value the constructor gave it |
| SerializerProperties.ValueOnlyRoundTrip | Service/Normalizer/GraphSerializer.php:71-185 | denormalizing the normalized form of a value-only object with scalar fields gives a new object with the same value in every property that has an edge |
| Validation.ErrorOf | Exception/EntityValidationException.php:16-26 | the path is `entityName.propertyPath`; the message gets `CLASS: ` exactly for a class-level constraint |
| Validation.ErrorsOf | Exception/EntityValidationException.php:15-27 | one error per violation, in order |
| Validation.CollectErrors | Exception/EntityValidationException.php:13-27 | the loop computes `ErrorsOf` |
| Validation.EntityValidationException.constructor | Exception/EntityValidationException.php:11-31 | the message is the joined lines of the collected errors |
| Validation.NoViolationsEmptyMessage | Exception/EntityValidationException.php:28-30 | no violations give the empty message |
| Validation.SplitJoin | Exception/EntityValidationException.php:28 | splitting the joined lines at line breaks gives the lines back when none contains one |
| Validation.MessageLines | Exception/EntityValidationException.php:15-30 | the message has one line per violation, in order, each `Entity.path:message` with `CLASS: ` for class-level ones |

## Left out

- The constructors of `Descriptor` and `GraphSerializer` wire up Symfony's
  property-info extractors. The model takes the metadata as parameters
  instead.
- The constructors of `GraphSerializer` and of `Descriptor`
  (Entity/Descriptor.php:45-66) never assign `$this->propertyInfo` when one
  is passed in. This is not modelled, because the model builds neither
  object.
- `loadGraphDefinition` reads the graph from the call context or the
  default context. The model passes the graph as a parameter. As a result,
  `supportsDenormalization`, which reads only the default context, is
  modelled with the same graph as the call.
- The option to turn off the default circular-reference handler is not
  modelled. With it off, Symfony throws instead of calling the handler.
- A `circular_reference_handler` passed in the call context replaces the
  one the constructor sets (Service/Normalizer/GraphSerializer.php:58-60).
  The model always uses the serializer's own handler.
- The order of the Symfony serializer chain is not modelled. The model lets
  this normalizer and denormalizer handle every value they support; Symfony
  asks the registered normalizers in order and uses the first that
  supports the value, which may be another one.
- Denormalize of data that is not an array is not modelled beyond the
  blank instance. PHP's `foreach` over an object visits its public
  properties (Service/Normalizer/GraphSerializer.php:151); the model treats
  any non-array data as having no entries.
- `new $type()` (Service/Normalizer/GraphSerializer.php:149) throws for a
  class whose constructor needs arguments. The model's `Runtime.defaults`
  always succeeds.
- A violation without a constraint makes `getConstraint()->getTargets()`
  raise an `Error` (Exception/EntityValidationException.php:16). The model's
  `Violation` always carries the constraint's targets.
- The class-name fallback of `circularReferenceHandler` is not modelled.
  It returns `(string)$object` for an object without a class name, and
  every PHP object has one.
- Fhaculty `Graph` internals are not modelled. Edge attributes are datatype
  fields, and vertex lookup is a map lookup.
- Doctrine's annotation reader and `ReflectionClass` are not modelled. The
  annotation name is `Metadata.entityName`.
- Symfony's `u()->camel()` is not modelled. It is the uninterpreted
  `Metadata.camel`.
- Symfony's circular-reference counters are replaced by the `visited` set.
  This matches the default limit of 1 only.
- Dynamic `get`/`set` dispatch is replaced by field-map reads and writes.
  `method_exists` for setters is `Runtime.hasSetter`.
- A missing getter or setter raises a PHP `Error`. Here it is an `Error`
  value in a `Result`.
- `in_array` is modelled as strict equality of class names. PHP's loose
  comparison makes no difference for strings that are class names.
- PHP's conversion of numeric-string array keys to integers is not modelled.
  Result keys are always strings.
- The source reads an edge's `class` attribute by its truthiness. The model
  looks only at whether it is present, because class names are never `""` or `"0"`.
- The other normalizers and denormalizers of the Symfony chain are uninterpreted
  functions of the value (`Runtime.normalizeOther`,
  `Runtime.denormalizeOther`). Their own effects on objects are not
  modelled.
- The entity objects are values in an explicit heap map, not Dafny objects.
  Aliasing between live objects is represented only through `Ref` ids.
- `GraphSerializer.DenormalizedEntries`: its contract states the frame and
  heap well-formedness only. What each turn assigns is stated by
  `SerializerProperties.DenormalizeAssigns` and `AbsentKeepsDefault`.
- `Service/Normalizer/EntityNormalizer.php` and
  `Service/Normalizer/StreamNormalizer.php` are not modelled. The first is a
  thin wrapper around Doctrine lookups; the second casts a resource to a
  string, which is I/O.
- The other exception classes (`EntityNotFoundException`,
  `EntityIdNotFoundException`, `UnrecognizableFilterException`,
  `UnauthorizedUserException`) are not modelled. They are fixed one-line
  message templates.
- The `Entity` annotation holder and the `AbstractPermissionProvider`
  interface have no model of their own. The interface is the signature of
  `Permission.Policy`.
