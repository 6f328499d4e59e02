/** What the registry tables as shipped make of the constructors, and, on an
    extended set of tables that also registers one Id type and one Index
    type, how the Id and Index paths behave. */
module Scenarios {

  import opened Registry
  import opened Text
  import opened UniversalIds

  lemma ShippedTablesWellFormed()
    ensures Shipped.Valid()
    ensures Shipped.Disjoint()
  {
  }

  /** UniversalId(Type_Globals) is a record list named "Global Variables";
      UniversalId(Type_None) has class None and reads "empty". */
  lemma ShippedArgumentLessTypes()
    ensures FromType(Shipped, TypeGlobals) == Ok(UniversalId(NoArgument, TypeGlobals, ClassRecordList, "", 0))
    ensures ToString(Shipped, FromType(Shipped, TypeGlobals).value) == Ok("Global Variables")
    ensures FromType(Shipped, TypeNone) == Ok(UniversalId(NoArgument, TypeNone, ClassNone, "", 0))
    ensures ToString(Shipped, FromType(Shipped, TypeNone).value) == Ok("empty")
  {
    GlobalsIsSecondShippedRow();
  }

  /** The scan for Type_Globals passes the Type_None row and stops at the second. */
  lemma GlobalsIsSecondShippedRow()
    ensures Lookup(Shipped.noArg, TypeGlobals) == Some(TypeData(ClassRecordList, TypeGlobals, Some("Global Variables")))
  {
  }

  /** Any other type is refused by the argument-less constructor. */
  lemma ShippedRejectsUnregistered(ty: Type)
    requires ty != TypeNone && ty != TypeGlobals
    ensures FromType(Shipped, ty) == Err(InvalidNoArgType)
  {
  }

  /** With the shipped tables the id and index constructors always fail. */
  lemma ShippedRejectsIdAndIndex(ty: Type, id: string, index: int)
    ensures FromTypeAndId(Shipped, ty, id) == Err(InvalidIdArgType)
    ensures FromTypeAndIndex(Shipped, ty, index) == Err(InvalidIndexArgType)
  {
  }

  /** The imperative constructor and toString on the shipped tables. */
  method RenderShippedGlobals() returns (s: Result<string>)
    ensures s == Ok("Global Variables")
  {
    ShippedArgumentLessTypes();
    var u := NewFromType(Shipped, TypeGlobals);
    s := Render(Shipped, u.value);
  }

  // Two further types, registered only in the extended tables below.
  const RecordType: Type := 2
  const CellType: Type := 3

  const Extended := Tables(
    Shipped.noArg,
    [ TypeData(ClassRecordList, RecordType, Some("Record")), EndMarker ],
    [ TypeData(ClassRecordList, CellType, Some("Cell")), EndMarker ])

  lemma ExtendedTablesWellFormed()
    ensures Extended.Valid()
    ensures Extended.Disjoint()
  {
  }

  /** Two identifiers built with the same type and index are equal and
      neither is less; a smaller index orders first. With value semantics the
      two constructions of (CellType, 3) are one and the same value, so that
      clause is isEqual's reflexivity and isLess's irreflexivity on it. */
  lemma ExtendedIndexOrdering()
    ensures FromTypeAndIndex(Extended, CellType, 3).Ok? && FromTypeAndIndex(Extended, CellType, 5).Ok?
    ensures var a, b := FromTypeAndIndex(Extended, CellType, 3).value, FromTypeAndIndex(Extended, CellType, 3).value;
      IsEqual(a, b) && !IsLess(a, b) && !IsLess(b, a)
    ensures IsLess(FromTypeAndIndex(Extended, CellType, 3).value, FromTypeAndIndex(Extended, CellType, 5).value)
    ensures ToString(Extended, FromTypeAndIndex(Extended, CellType, 5).value) == Ok("Cell 5")
    ensures FromTypeAndId(Extended, CellType, "x") == Err(InvalidIdArgType)
  {
    assert DecimalString(5) == "5";
    assert "Cell" + " " + "5" == "Cell 5";
  }

  /** The id form renders with the trailing index 0 of the fall-through. */
  lemma ExtendedIdString()
    ensures FromTypeAndId(Extended, RecordType, "ref") == Ok(UniversalId(IdArgument, RecordType, ClassRecordList, "ref", 0))
    ensures ToString(Extended, FromTypeAndId(Extended, RecordType, "ref").value) == Ok("Record ref 0")
    ensures GetIndex(FromTypeAndId(Extended, RecordType, "ref").value) == Err(NotAnIndex)
  {
    assert DecimalString(0) == "0";
    assert "Record" + " " + "ref" + " " + "0" == "Record ref 0";
  }

  /** Without disjoint tables the ordering is not total: a type registered
      both with and without an argument yields two identifiers that are
      neither equal nor ordered. */
  lemma OverlappingTablesBreakTrichotomy()
    ensures var overlapping := Tables(Shipped.noArg, [TypeData(ClassNone, TypeGlobals, Some("g")), EndMarker], [EndMarker]);
      var a, b := FromType(overlapping, TypeGlobals), FromTypeAndId(overlapping, TypeGlobals, "k");
      && a.Ok? && b.Ok?
      && !IsEqual(a.value, b.value) && !IsLess(a.value, b.value) && !IsLess(b.value, a.value)
  {
    GlobalsIsSecondShippedRow();
  }
}
