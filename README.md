# UniversalId: a Dafny model

This project models `CSMWorld::UniversalId` from the OpenMW construction set
(`apps/opencs/model/world/universalid.cpp`). A UniversalId is an immutable
identifier with four parts:

- a type;
- a class, which is looked up rather than supplied;
- an argument shape: none, a string id, or an integer index;
- the payload that the shape calls for.

Three constant registry tables (`sNoArg`, `sIdArg`, `sIndexArg`) list the
types that are legal under each shape. Each row gives a type's class and
display name, and every table ends with a row that has no name.

Modules:

- `Registry` (registry.dfy) holds the enumerations, the `TypeData` rows, the
  three tables as one `Tables` value and the tables as shipped (`Shipped`).
  `Lookup` is the recursive meaning of the sentinel-terminated scan.
  `FindRow` is the scanning loop itself, proved equal to `Lookup`.
  `LookupFindsFirstHit` ties `Lookup` to the independent definitions
  `Listed` ("occurs before the end marker") and `FirstHit`.
- `Text` (text.dfy) holds `std::string`'s `<` (`StringLess`) and the decimal
  form that an output stream writes for an `int` (`DecimalString`). It also
  proves the order laws of `StringLess` and a parse-back round trip for
  `DecimalString`.
- `UniversalIds` (universal_id.dfy) holds the identifier value. Each of the
  three constructors is a specification function (`FromType`,
  `FromTypeAndId`, `FromTypeAndIndex`) plus a method that runs the scan
  (`NewFromType`, …). The module also holds the checked accessors, `isEqual`,
  `isLess`, `getTypeName` (function `TypeName`, method `GetTypeName`) and
  `toString` (function `ToString`, method `Render`). Every C++ throw becomes
  an `Err` with its own tag in `Error`.
- `Scenarios` (scenarios.dfy) states what the shipped tables give. It also
  defines an `Extended` set of tables that registers one Id type and one
  Index type, so that the Id and Index paths can be exercised as well.

The tables are a parameter of every operation. With `Shipped`, the Id and
Index constructors can never succeed, and `ShippedRejectsIdAndIndex` proves
this.

`getClass`, `getArgumentType` and `getType` are the fields `cls`,
`argumentType` and `ty` of the `UniversalId` datatype. `operator==` and
`operator<` only forward to `isEqual` and `isLess`, so they are `IsEqual`
and `IsLess`. `operator!=` is `NotEqual`.

`toString` is modelled as written. The `switch` has no `break` after the Id
case, so an Id-shaped identifier renders as `"<name> <id> 0"`.
`ToStringOfConstructed` and `ExtendedIdString` state this outright.

## Model

| member | source | states |
|---|---|---|
| `Registry.Shipped` | apps/opencs/model/world/universalid.cpp:17-35 | the three tables as shipped, row for row; their laws are in `Scenarios.ShippedTablesWellFormed`, `Scenarios.ShippedArgumentLessTypes` and `Scenarios.ShippedRejectsIdAndIndex` |
| `Registry.Tables.TableFor` | apps/opencs/model/world/universalid.cpp:140-141 | follows the source as written: the shape selects sNoArg, sIdArg or sIndexArg; used by `UniversalIds.TypeNameAfterConstruction` and `UniversalIds.GetTypeName` |
| `Registry.Lookup` | apps/opencs/model/world/universalid.cpp:40-45 | a row the scan returns is a row of the table, has the requested type, and is not the end marker |
| `Registry.LookupFindsFirstHit` | apps/opencs/model/world/universalid.cpp:40-47 | the scan succeeds exactly when the type occurs before the end marker, and it then returns the first row of that type |
| `Registry.FindRow` | apps/opencs/model/world/universalid.cpp:40-74 | the counting loop that stops at the first row without a name (the loops of the three constructors, and the same loop in getTypeName at lines 143-147) returns exactly the row that `Lookup` describes |
| `UniversalIds.FromType` | apps/opencs/model/world/universalid.cpp:38-48 | the argument-less constructor succeeds iff the type is listed in sNoArg; on success the shape is None, the type is the given one, the index is 0 and the class is that of the first matching row; otherwise it fails with InvalidNoArgType |
| `UniversalIds.FromTypeAndId` | apps/opencs/model/world/universalid.cpp:50-61 | the id constructor consults only sIdArg; on success it keeps the given id, sets the index to 0 and takes the class of the first matching row; otherwise it fails with InvalidIdArgType |
| `UniversalIds.FromTypeAndIndex` | apps/opencs/model/world/universalid.cpp:63-74 | the index constructor consults only sIndexArg; on success it keeps the given index and takes the class of the first matching row; otherwise it fails with InvalidIndexArgType |
| `UniversalIds.ConstructedIffBuilt` | apps/opencs/model/world/universalid.cpp:38-74 | a value satisfies the validity predicate exactly when one of the three constructors produces it |
| `UniversalIds.NewFromType` | apps/opencs/model/world/universalid.cpp:38-48 | the imperative constructor returns what `FromType` specifies |
| `UniversalIds.NewFromTypeAndId` | apps/opencs/model/world/universalid.cpp:50-61 | the imperative id constructor returns what `FromTypeAndId` specifies |
| `UniversalIds.NewFromTypeAndIndex` | apps/opencs/model/world/universalid.cpp:63-74 | the imperative index constructor returns what `FromTypeAndIndex` specifies |
| `UniversalIds.GetId` | apps/opencs/model/world/universalid.cpp:91-97 | follows the source as written: the id of an Id-shaped value, NotAnId otherwise; its laws are in `UniversalIds.CheckedAccessors` |
| `UniversalIds.GetIndex` | apps/opencs/model/world/universalid.cpp:99-105 | follows the source as written: the index of an Index-shaped value, NotAnIndex otherwise; its laws are in `UniversalIds.CheckedAccessors` |
| `UniversalIds.CheckedAccessors` | apps/opencs/model/world/universalid.cpp:81-105 | after construction, `getType` and `getArgumentType` give back the type and shape; `getId` gives back the id only for the id form, `getIndex` gives back the index only for the index form, and every other access fails with NotAnId or NotAnIndex |
| `UniversalIds.IsEqual` | apps/opencs/model/world/universalid.cpp:107-119 | follows the source as written (class, shape and type, then the payload the shape selects); its laws are in `UniversalIds.IsEqualIsEquivalence` and `UniversalIds.IsEqualIsValueEquality` |
| `UniversalIds.NotEqual` | apps/opencs/model/world/universalid.cpp:171-174 | follows the source as written, the negation of isEqual; on constructed values it is value inequality by `UniversalIds.IsEqualIsValueEquality` |
| `UniversalIds.IsEqualIsEquivalence` | apps/opencs/model/world/universalid.cpp:107-119 | isEqual is reflexive, symmetric and transitive |
| `UniversalIds.IsEqualIsValueEquality` | apps/opencs/model/world/universalid.cpp:107-119 | on constructed values isEqual holds exactly when the values are identical, and operator!= exactly when they differ |
| `UniversalIds.SameTypeSameShape` | apps/opencs/model/world/universalid.cpp:17-35 | when no type is registered under two shapes, two constructed values of one type have the same shape and class |
| `UniversalIds.IsLess` | apps/opencs/model/world/universalid.cpp:121-136 | follows the source as written (type first, then the payload the left operand's shape selects); its laws are in `UniversalIds.IsLessIrreflexive`, `UniversalIds.EqualIsNotLess` and `UniversalIds.IsLessStrictTotalOrder` |
| `UniversalIds.IsLessIrreflexive` | apps/opencs/model/world/universalid.cpp:121-136 | no value is less than itself |
| `UniversalIds.EqualIsNotLess` | apps/opencs/model/world/universalid.cpp:121-136 | values that isEqual relates are not less than each other in either direction |
| `UniversalIds.IsLessStrictTotalOrder` | apps/opencs/model/world/universalid.cpp:121-136 | with disjoint tables, isLess on constructed values is transitive and asymmetric, and any two values are equal or ordered one way |
| `UniversalIds.TypeName` | apps/opencs/model/world/universalid.cpp:138-148 | follows the source as written: the name of the first row of the type in the shape's table, TypeNameNotFound otherwise; its laws are in `UniversalIds.TypeNameAfterConstruction` |
| `UniversalIds.TypeNameAfterConstruction` | apps/opencs/model/world/universalid.cpp:138-148 | getTypeName never fails on a constructed value, and it returns the name of the first row of the type in the shape's table |
| `UniversalIds.GetTypeName` | apps/opencs/model/world/universalid.cpp:138-148 | the imperative name lookup picks the shape's table and returns what `TypeName` specifies |
| `UniversalIds.Render` | apps/opencs/model/world/universalid.cpp:150-164 | toString, with the Id case falling through into the Index case, produces the shape-by-shape string that `ToString` defines |
| `UniversalIds.ToString` | apps/opencs/model/world/universalid.cpp:150-164 | follows the source as written, shape by shape, with the Id case also writing the index; its laws are in `UniversalIds.ToStringOfConstructed`, and `UniversalIds.Render` is proved equal to it |
| `UniversalIds.ToStringOfConstructed` | apps/opencs/model/world/universalid.cpp:150-164 | the string of an argument-less value is its registered name; an index value reads "name index"; an id value reads "name id 0" |
| `Text.StringLess` | apps/opencs/model/world/universalid.cpp:131 | follows std::string's `<` as written (character by character, a proper prefix is smaller); its laws are in `Text.StringLessIrreflexive`, `Text.StringLessTransitive` and `Text.StringLessTrichotomy` |
| `Text.StringLessTrichotomy` | apps/opencs/model/world/universalid.cpp:131 | the string order used for ids is total and asymmetric |
| `Text.StringLessTransitive` | apps/opencs/model/world/universalid.cpp:131 | the string order used for ids is transitive |
| `Text.StringLessIrreflexive` | apps/opencs/model/world/universalid.cpp:131 | no id string is less than itself |
| `Text.NatDecimal` | apps/opencs/model/world/universalid.cpp:160 | the digits written for a non-negative index are non-empty decimal digits with no leading zero |
| `Text.DecimalString` | apps/opencs/model/world/universalid.cpp:160 | the text a stream writes for an `int`, never empty; `Text.DecimalRoundTrip` proves it reads back as the same integer |
| `Text.DecimalRoundTrip` | apps/opencs/model/world/universalid.cpp:160 | the decimal text written for an index reads back as that index |
| `Scenarios.ShippedTablesWellFormed` | apps/opencs/model/world/universalid.cpp:17-35 | the shipped tables end in a marker and register no type under two shapes |
| `Scenarios.ShippedArgumentLessTypes` | apps/opencs/model/world/universalid.cpp:19-20 | Type_Globals gives class RecordList and the string "Global Variables"; Type_None gives class None and the string "empty" |
| `Scenarios.ShippedRejectsUnregistered` | apps/opencs/model/world/universalid.cpp:38-48 | any other type is refused by the argument-less constructor |
| `Scenarios.ShippedRejectsIdAndIndex` | apps/opencs/model/world/universalid.cpp:25-35 | with the shipped tables the id and index constructors always fail |
| `Scenarios.RenderShippedGlobals` | apps/opencs/model/world/universalid.cpp:150-164 | running the imperative constructor and toString on Type_Globals yields "Global Variables" |
| `Scenarios.ExtendedTablesWellFormed` | apps/opencs/model/world/universalid.cpp:17-35 | the extended tables are terminated and disjoint |
| `Scenarios.ExtendedIndexOrdering` | apps/opencs/model/world/universalid.cpp:115-160 | index identifiers built from the same type and index are equal and unordered, a smaller index orders first, and the string is "Cell 5" |
| `Scenarios.ExtendedIdString` | apps/opencs/model/world/universalid.cpp:159-160 | an id identifier renders as "Record ref 0" and refuses index access |
| `Scenarios.OverlappingTablesBreakTrichotomy` | apps/opencs/model/world/universalid.cpp:129-135 | if a type is registered under two shapes, two of its identifiers can be neither equal nor ordered, so the total-order law needs disjoint tables |

## Left out

- The stream operator at universalid.cpp:181-184 is not modelled. It is stream output that only forwards `toString`, and it is declared as `operator<` where `<<` was evidently meant.
- The `std::ostringstream` mechanics are not modelled. Output is string concatenation, and `DecimalString` stands for writing an `int` to a stream.
- Exception classes and message texts are not modelled. Each throw is a distinct `Error` tag.
- The header `universalid.hpp` is not part of this model. `Type` is represented by its enumerator value, and the values given to `TypeNone` (0) and `TypeGlobals` (1) are placeholders: no property depends on which one is smaller. `Class` lists only the two enumerators that the tables use.
- `Text.StringLess` compares characters by code point. C++ compares `char` values as `unsigned char`; the model has no byte encoding.
- The C++ `int` width of the index is not modelled. No operation does arithmetic on it.
- Running a scan over a table without an end marker reads past the array in C++. Every method that scans therefore requires `Tables.Valid()`.
