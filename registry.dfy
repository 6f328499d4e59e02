/** The kind registry behind UniversalId: three constant tables, one per
    argument shape, each a run of (class, type, display name) rows closed by
    an end marker whose name is absent. A type is legal under a shape exactly
    when it occurs in that shape's table before the end marker. */
module Registry {

  datatype Option<+T> = None | Some(value: T)

  /** UniversalId::Type, represented by its enumerator value: the ordering of
      identifiers compares types with `<`, as C++ compares enumerators. */
  newtype Type = int

  // The enumerator values below are placeholders; only their distinctness is used.
  // Any order between TypeNone and TypeGlobals that follows from them (here
  // TypeNone < TypeGlobals) comes from the placeholders, not from the enum's
  // declaration, which is not part of this model.
  const TypeNone: Type := 0
  const TypeGlobals: Type := 1

  /** UniversalId::Class (only the enumerators the tables use). */
  datatype Class = ClassNone | ClassRecordList

  /** UniversalId::ArgumentType: which payload an identifier carries. */
  datatype ArgumentType = NoArgument | IdArgument | IndexArgument

  /** One TypeData row; `name == None` marks the end of a table. */
  datatype TypeData = TypeData(cls: Class, ty: Type, name: Option<string>)

  const EndMarker := TypeData(ClassNone, TypeNone, None)

  /** A table the scanning loop can walk: its last row is an end marker. */
  predicate Terminated(table: seq<TypeData>) {
    |table| > 0 && table[|table| - 1].name.None?
  }

  /** Row `i` is reached by the scan: no end marker at or before it. */
  ghost predicate BeforeEndMarker(table: seq<TypeData>, i: int) {
    0 <= i < |table| && forall j :: 0 <= j <= i ==> table[j].name.Some?
  }

  /** `ty` is registered in `table`: some row before the end marker has it. */
  ghost predicate Listed(table: seq<TypeData>, ty: Type) {
    exists i :: BeforeEndMarker(table, i) && table[i].ty == ty
  }

  /** Row `i` is the first registered row of type `ty`. */
  ghost predicate FirstHit(table: seq<TypeData>, ty: Type, i: int) {
    BeforeEndMarker(table, i) && table[i].ty == ty &&
    forall j :: 0 <= j < i ==> table[j].ty != ty
  }

  /** The three registry tables (sNoArg, sIdArg, sIndexArg). */
  datatype Tables = Tables(noArg: seq<TypeData>, idArg: seq<TypeData>, indexArg: seq<TypeData>) {

    predicate Valid() {
      Terminated(noArg) && Terminated(idArg) && Terminated(indexArg)
    }

    /** The table consulted for a given argument shape. */
    function TableFor(shape: ArgumentType): seq<TypeData> {
      match shape
      case NoArgument => noArg
      case IdArgument => idArg
      case IndexArgument => indexArg
    }

    /** No type is registered under two shapes. */
    ghost predicate Disjoint() {
      forall ty ::
        && !(Listed(noArg, ty) && Listed(idArg, ty))
        && !(Listed(noArg, ty) && Listed(indexArg, ty))
        && !(Listed(idArg, ty) && Listed(indexArg, ty))
    }
  }

  /** The tables as shipped: two argument-less types, no Id or Index types. */
  const Shipped := Tables(
    [ TypeData(ClassNone, TypeNone, Some("empty")),
      TypeData(ClassRecordList, TypeGlobals, Some("Global Variables")),
      EndMarker ],
    [ EndMarker ],
    [ EndMarker ])

  /** What a scan of `table` for `ty` finds: the first row of type `ty`
      before the end marker, if any. */
  function Lookup(table: seq<TypeData>, ty: Type): (r: Option<TypeData>)
    ensures r.Some? ==> r.value in table && r.value.ty == ty && r.value.name.Some?
  {
    if |table| == 0 || table[0].name.None? then None
    else if table[0].ty == ty then Some(table[0])
    else Lookup(table[1..], ty)
  }

  /** Lookup succeeds exactly for registered types, and then yields the first
      registered row of that type. */
  lemma {:induction false} LookupFindsFirstHit(table: seq<TypeData>, ty: Type)
    ensures Lookup(table, ty).Some? <==> Listed(table, ty)
    ensures Lookup(table, ty).Some? ==>
      exists i :: FirstHit(table, ty, i) && Lookup(table, ty).value == table[i]
  {
    if |table| == 0 || table[0].name.None? {
    } else if table[0].ty == ty {
      assert BeforeEndMarker(table, 0);
      assert FirstHit(table, ty, 0);
    } else {
      var rest := table[1..];
      LookupFindsFirstHit(rest, ty);
      if Listed(table, ty) {
        var i :| BeforeEndMarker(table, i) && table[i].ty == ty;
        assert BeforeEndMarker(rest, i - 1);
      }
      if Listed(rest, ty) {
        var k :| BeforeEndMarker(rest, k) && rest[k].ty == ty;
        assert BeforeEndMarker(table, k + 1);
      }
      if Lookup(rest, ty).Some? {
        var k :| FirstHit(rest, ty, k) && Lookup(rest, ty).value == rest[k];
        assert FirstHit(table, ty, k + 1);
      }
    }
  }

  /** The scanning loop shared by the three constructors and getTypeName:
      walk the rows until the end marker, stopping at the first row of type `ty`. */
  method FindRow(table: seq<TypeData>, ty: Type) returns (row: Option<TypeData>)
    requires Terminated(table)
    ensures row == Lookup(table, ty)
  {
    var i := 0;
    while table[i].name.Some?
      invariant 0 <= i < |table|
      invariant Lookup(table, ty) == Lookup(table[i..], ty)
      decreases |table| - i
    {
      if table[i].ty == ty {
        return Some(table[i]);
      }
      assert table[i..][1..] == table[i + 1..];
      i := i + 1;
    }
    return None;
  }
}
