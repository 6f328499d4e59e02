/** CSMWorld::UniversalId: an immutable identifier made of an argument shape,
    a type, the class the registry assigns to that type, and a payload (a
    string id or an integer index) whose presence the shape dictates.
    Every throw of the C++ class is an `Err` carrying one of the tags below. */
module UniversalIds {

  import opened Registry
  import opened Text

  datatype Error =
    | InvalidNoArgType     // argument-less constructor, type not in sNoArg
    | InvalidIdArgType     // id constructor, type not in sIdArg
    | InvalidIndexArgType  // index constructor, type not in sIndexArg
    | NotAnId              // getId on an identifier that is not Id-shaped
    | NotAnIndex           // getIndex on an identifier that is not Index-shaped
    | TypeNameNotFound     // getTypeName found no row for the type

  datatype Result<+T> = Ok(value: T) | Err(error: Error)

  /** The fields of a UniversalId. `id` is the empty string unless the shape
      is IdArgument, and `index` is 0 unless the shape is IndexArgument,
      as the constructors initialise them. The accessors getClass,
      getArgumentType and getType are the fields `cls`, `argumentType`, `ty`. */
  datatype UniversalId = UniversalId(argumentType: ArgumentType, ty: Type, cls: Class, id: string, index: int)

  /** The values the three constructors can produce: the class is the one
      registered for the type in the shape's table, and the unused payload
      fields keep their initial values. */
  ghost predicate Constructed(tables: Tables, u: UniversalId) {
    && (u.argumentType != IdArgument ==> u.id == "")
    && (u.argumentType != IndexArgument ==> u.index == 0)
    && match Lookup(tables.TableFor(u.argumentType), u.ty)
       case Some(row) => row.cls == u.cls
       case None => false
  }

  // ---------------------------------------------------------------- construction

  /** UniversalId(type): succeeds exactly when the type is registered without
      an argument, and then takes the class of the first matching row. */
  function FromType(tables: Tables, ty: Type): (r: Result<UniversalId>)
    ensures r.Ok? <==> Listed(tables.noArg, ty)
    ensures r.Ok? ==> r.value.argumentType == NoArgument && r.value.ty == ty && r.value.index == 0
    ensures r.Ok? ==> exists i :: FirstHit(tables.noArg, ty, i) && r.value.cls == tables.noArg[i].cls
    ensures r.Err? ==> r.error == InvalidNoArgType
  {
    LookupFindsFirstHit(tables.noArg, ty);
    match Lookup(tables.noArg, ty)
    case Some(row) => Ok(UniversalId(NoArgument, ty, row.cls, "", 0))
    case None => Err(InvalidNoArgType)
  }

  /** UniversalId(type, id): consults only the id table. */
  function FromTypeAndId(tables: Tables, ty: Type, id: string): (r: Result<UniversalId>)
    ensures r.Ok? <==> Listed(tables.idArg, ty)
    ensures r.Ok? ==> r.value.argumentType == IdArgument && r.value.ty == ty && r.value.id == id && r.value.index == 0
    ensures r.Ok? ==> exists i :: FirstHit(tables.idArg, ty, i) && r.value.cls == tables.idArg[i].cls
    ensures r.Err? ==> r.error == InvalidIdArgType
  {
    LookupFindsFirstHit(tables.idArg, ty);
    match Lookup(tables.idArg, ty)
    case Some(row) => Ok(UniversalId(IdArgument, ty, row.cls, id, 0))
    case None => Err(InvalidIdArgType)
  }

  /** UniversalId(type, index): consults only the index table. */
  function FromTypeAndIndex(tables: Tables, ty: Type, index: int): (r: Result<UniversalId>)
    ensures r.Ok? <==> Listed(tables.indexArg, ty)
    ensures r.Ok? ==> r.value.argumentType == IndexArgument && r.value.ty == ty && r.value.index == index
    ensures r.Ok? ==> exists i :: FirstHit(tables.indexArg, ty, i) && r.value.cls == tables.indexArg[i].cls
    ensures r.Err? ==> r.error == InvalidIndexArgType
  {
    LookupFindsFirstHit(tables.indexArg, ty);
    match Lookup(tables.indexArg, ty)
    case Some(row) => Ok(UniversalId(IndexArgument, ty, row.cls, "", index))
    case None => Err(InvalidIndexArgType)
  }

  /** A value is Constructed exactly when one of the three constructors builds it. */
  lemma ConstructedIffBuilt(tables: Tables, u: UniversalId)
    ensures Constructed(tables, u) <==>
      || FromType(tables, u.ty) == Ok(u)
      || FromTypeAndId(tables, u.ty, u.id) == Ok(u)
      || FromTypeAndIndex(tables, u.ty, u.index) == Ok(u)
  {
  }

  method NewFromType(tables: Tables, ty: Type) returns (r: Result<UniversalId>)
    requires tables.Valid()
    ensures r == FromType(tables, ty)
  {
    var row := FindRow(tables.noArg, ty);
    match row
    case Some(hit) => r := Ok(UniversalId(NoArgument, ty, hit.cls, "", 0));
    case None => r := Err(InvalidNoArgType);
  }

  method NewFromTypeAndId(tables: Tables, ty: Type, id: string) returns (r: Result<UniversalId>)
    requires tables.Valid()
    ensures r == FromTypeAndId(tables, ty, id)
  {
    var row := FindRow(tables.idArg, ty);
    match row
    case Some(hit) => r := Ok(UniversalId(IdArgument, ty, hit.cls, id, 0));
    case None => r := Err(InvalidIdArgType);
  }

  method NewFromTypeAndIndex(tables: Tables, ty: Type, index: int) returns (r: Result<UniversalId>)
    requires tables.Valid()
    ensures r == FromTypeAndIndex(tables, ty, index)
  {
    var row := FindRow(tables.indexArg, ty);
    match row
    case Some(hit) => r := Ok(UniversalId(IndexArgument, ty, hit.cls, "", index));
    case None => r := Err(InvalidIndexArgType);
  }

  // ---------------------------------------------------------------- checked accessors

  function GetId(u: UniversalId): Result<string> {
    if u.argumentType != IdArgument then Err(NotAnId) else Ok(u.id)
  }

  function GetIndex(u: UniversalId): Result<int> {
    if u.argumentType != IndexArgument then Err(NotAnIndex) else Ok(u.index)
  }

  /** Reading back a constructed identifier returns what it was built from;
      the accessor of the other payload fails. */
  lemma CheckedAccessors(tables: Tables, ty: Type, id: string, index: int)
    ensures FromType(tables, ty).Ok? ==>
      var u := FromType(tables, ty).value;
      u.ty == ty && u.argumentType == NoArgument && GetId(u) == Err(NotAnId) && GetIndex(u) == Err(NotAnIndex)
    ensures FromTypeAndId(tables, ty, id).Ok? ==>
      var u := FromTypeAndId(tables, ty, id).value;
      u.ty == ty && u.argumentType == IdArgument && GetId(u) == Ok(id) && GetIndex(u) == Err(NotAnIndex)
    ensures FromTypeAndIndex(tables, ty, index).Ok? ==>
      var u := FromTypeAndIndex(tables, ty, index).value;
      u.ty == ty && u.argumentType == IndexArgument && GetIndex(u) == Ok(index) && GetId(u) == Err(NotAnId)
  {
  }

  // ---------------------------------------------------------------- equality

  /** isEqual, and so operator==. */
  function IsEqual(a: UniversalId, b: UniversalId): bool {
    if a.cls != b.cls || a.argumentType != b.argumentType || a.ty != b.ty then false
    else
      match a.argumentType
      case IdArgument => a.id == b.id
      case IndexArgument => a.index == b.index
      case NoArgument => true
  }

  /** operator!=. */
  function NotEqual(a: UniversalId, b: UniversalId): bool {
    !IsEqual(a, b)
  }

  /** isEqual is an equivalence relation on all values, constructed or not. */
  lemma IsEqualIsEquivalence(a: UniversalId, b: UniversalId, c: UniversalId)
    ensures IsEqual(a, a)
    ensures IsEqual(a, b) <==> IsEqual(b, a)
    ensures IsEqual(a, b) && IsEqual(b, c) ==> IsEqual(a, c)
  {
  }

  /** On constructed values isEqual is plain value equality, and != its negation. */
  lemma IsEqualIsValueEquality(tables: Tables, a: UniversalId, b: UniversalId)
    requires Constructed(tables, a) && Constructed(tables, b)
    ensures IsEqual(a, b) <==> a == b
    ensures NotEqual(a, b) <==> a != b
  {
  }

  /** With disjoint tables the type alone fixes the shape and the class, so
      comparing the class in isEqual never changes its answer. */
  lemma SameTypeSameShape(tables: Tables, a: UniversalId, b: UniversalId)
    requires tables.Disjoint()
    requires Constructed(tables, a) && Constructed(tables, b)
    requires a.ty == b.ty
    ensures a.argumentType == b.argumentType && a.cls == b.cls
  {
    LookupFindsFirstHit(tables.TableFor(a.argumentType), a.ty);
    LookupFindsFirstHit(tables.TableFor(b.argumentType), b.ty);
  }

  // ---------------------------------------------------------------- ordering

  /** isLess, and so operator<: by type first, then by the payload that the
      left operand's shape selects; argument-less identifiers of one type tie. */
  function IsLess(a: UniversalId, b: UniversalId): bool {
    if a.ty < b.ty then true
    else if a.ty > b.ty then false
    else
      match a.argumentType
      case IdArgument => StringLess(a.id, b.id)
      case IndexArgument => a.index < b.index
      case NoArgument => false
  }

  lemma IsLessIrreflexive(a: UniversalId)
    ensures !IsLess(a, a)
  {
    StringLessIrreflexive(a.id);
  }

  /** Values that isEqual holds of are not less than each other either way. */
  lemma EqualIsNotLess(a: UniversalId, b: UniversalId)
    requires IsEqual(a, b)
    ensures !IsLess(a, b) && !IsLess(b, a)
  {
    StringLessIrreflexive(a.id);
  }

  /** With disjoint tables, isLess is a strict total order on constructed
      values: transitive, and exactly one of a < b, b < a, a == b holds
      (that equal values are unordered is EqualIsNotLess). */
  lemma IsLessStrictTotalOrder(tables: Tables, a: UniversalId, b: UniversalId, c: UniversalId)
    requires tables.Disjoint()
    requires Constructed(tables, a) && Constructed(tables, b) && Constructed(tables, c)
    ensures IsLess(a, b) && IsLess(b, c) ==> IsLess(a, c)
    ensures IsEqual(a, b) || IsLess(a, b) || IsLess(b, a)
    ensures !(IsLess(a, b) && IsLess(b, a))
  {
    if a.ty == b.ty {
      SameTypeSameShape(tables, a, b);
      StringLessTrichotomy(a.id, b.id);
      StringLessIrreflexive(a.id);
    }
    if a.ty == b.ty == c.ty {
      SameTypeSameShape(tables, b, c);
      if IsLess(a, b) && IsLess(b, c) && a.argumentType == IdArgument {
        StringLessTransitive(a.id, b.id, c.id);
      }
    }
  }

  // ---------------------------------------------------------------- name and string form

  /** getTypeName: the name of the first row of the type in the shape's table. */
  function TypeName(tables: Tables, u: UniversalId): Result<string> {
    match Lookup(tables.TableFor(u.argumentType), u.ty)
    case Some(row) => Ok(row.name.value)
    case None => Err(TypeNameNotFound)
  }

  /** getTypeName never fails on a constructed value: the constructor already
      found the type in the same table. */
  lemma TypeNameAfterConstruction(tables: Tables, u: UniversalId)
    requires Constructed(tables, u)
    ensures TypeName(tables, u).Ok?
    ensures exists i ::
      FirstHit(tables.TableFor(u.argumentType), u.ty, i) &&
      TypeName(tables, u) == Ok(tables.TableFor(u.argumentType)[i].name.value)
  {
    LookupFindsFirstHit(tables.TableFor(u.argumentType), u.ty);
  }

  method GetTypeName(tables: Tables, u: UniversalId) returns (r: Result<string>)
    requires tables.Valid()
    ensures r == TypeName(tables, u)
  {
    var table := if u.argumentType == NoArgument then tables.noArg
      else if u.argumentType == IdArgument then tables.idArg
      else tables.indexArg;
    var row := FindRow(table, u.ty);
    match row
    case Some(hit) => r := Ok(hit.name.value);
    case None => r := Err(TypeNameNotFound);
  }

  /** The string form, shape by shape, as the switch in toString produces it:
      the Id case has no break, so it also appends the index. */
  function ToString(tables: Tables, u: UniversalId): Result<string> {
    match TypeName(tables, u)
    case Err(e) => Err(e)
    case Ok(name) =>
      match u.argumentType
      case NoArgument => Ok(name)
      case IdArgument => Ok(name + " " + u.id + " " + DecimalString(u.index))
      case IndexArgument => Ok(name + " " + DecimalString(u.index))
  }

  /** toString: write the name, then run the switch on the shape. */
  method Render(tables: Tables, u: UniversalId) returns (r: Result<string>)
    requires tables.Valid()
    ensures r == ToString(tables, u)
  {
    var name := GetTypeName(tables, u);
    if name.Err? {
      return Err(name.error);
    }
    var s := name.value;
    if u.argumentType == IdArgument {
      s := s + " " + u.id;
    }
    // no break above: the Id case continues into the Index case
    if u.argumentType == IdArgument || u.argumentType == IndexArgument {
      s := s + " " + DecimalString(u.index);
    }
    r := Ok(s);
  }

  /** The string form of each constructor's result: the registered name,
      then " <index>" for the index form, and " <id> 0" for the id form
      (the fall-through appends the index the id constructor set to 0). */
  lemma ToStringOfConstructed(tables: Tables, ty: Type, id: string, index: int)
    ensures FromType(tables, ty).Ok? ==>
      exists i :: FirstHit(tables.noArg, ty, i) &&
        ToString(tables, FromType(tables, ty).value) == Ok(tables.noArg[i].name.value)
    ensures FromTypeAndId(tables, ty, id).Ok? ==>
      exists i :: FirstHit(tables.idArg, ty, i) &&
        ToString(tables, FromTypeAndId(tables, ty, id).value) == Ok(tables.idArg[i].name.value + " " + id + " 0")
    ensures FromTypeAndIndex(tables, ty, index).Ok? ==>
      exists i :: FirstHit(tables.indexArg, ty, i) &&
        ToString(tables, FromTypeAndIndex(tables, ty, index).value) == Ok(tables.indexArg[i].name.value + " " + DecimalString(index))
  {
    LookupFindsFirstHit(tables.noArg, ty);
    LookupFindsFirstHit(tables.idArg, ty);
    LookupFindsFirstHit(tables.indexArg, ty);
    if FromTypeAndId(tables, ty, id).Ok? {
      var k :| FirstHit(tables.idArg, ty, k) && Lookup(tables.idArg, ty).value == tables.idArg[k];
      var name := tables.idArg[k].name.value;
      assert DecimalString(0) == "0";
      assert name + " " + id + " " + "0" == name + " " + id + " 0";
    }
  }
}
