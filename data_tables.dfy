/**
 * The registry of data table types: two string-keyed tables, one by the type's
 * name and one by the string form of the Java type it produces.
 */
module DataTables {
  import opened Wrappers
  import opened Exceptions
  import opened Transformers

  /** A data table type: its name, the `toString()` of its target type, and its transformer. */
  datatype DataTableType = DataTableType(name: string, typeKey: string, transformer: TableTransformer)

  /** The contents of the two maps of a registry. */
  datatype Tables = Tables(byName: map<string, DataTableType>, byType: map<string, DataTableType>)

  /** What `tableTypeByName.get(name)` answers. */
  function LookupByName(s: Tables, name: string): Option<DataTableType>
  {
    if name in s.byName then Some(s.byName[name]) else None
  }

  /** What `tableTypeByType.get(typeKey)` answers. */
  function LookupByType(s: Tables, typeKey: string): Option<DataTableType>
  {
    if typeKey in s.byType then Some(s.byType[typeKey]) else None
  }

  /** The two maps of a freshly constructed registry: every lookup answers absent. */
  function Empty(): (s: Tables)
    ensures forall name :: LookupByName(s, name) == None
    ensures forall typeKey :: LookupByType(s, typeKey) == None
  {
    Tables(map[], map[])
  }

  function DuplicateNameMessage(name: string): string
  {
    "There is already a data table type with name " + name
  }

  /**
   * `defineDataTableType`: only the name is checked; the type-keyed entry is
   * overwritten by the newest definition.
   */
  function Define(s: Tables, t: DataTableType): (r: Result<Tables, CucumberError>)
    ensures r.Failure? <==> t.name in s.byName
    ensures r.Failure? ==> r.error == DuplicateTypeName(DuplicateNameMessage(t.name))
    ensures r.Success? ==> LookupByName(r.value, t.name) == Some(t)
    ensures r.Success? ==> LookupByType(r.value, t.typeKey) == Some(t)
    ensures r.Success? ==> forall name :: name != t.name ==> LookupByName(r.value, name) == LookupByName(s, name)
    ensures r.Success? ==> forall typeKey :: typeKey != t.typeKey ==> LookupByType(r.value, typeKey) == LookupByType(s, typeKey)
  {
    if t.name in s.byName then
      Failure(DuplicateTypeName(DuplicateNameMessage(t.name)))
    else
      Success(Tables(s.byName[t.name := t], s.byType[t.typeKey := t]))
  }

  /**
   * The consistency every reachable registry keeps: each entry is filed under its
   * own name or type key, every type-keyed entry is still reachable by its name,
   * and every named type's key has an entry.
   */
  ghost predicate Consistent(s: Tables)
  {
    && (forall name :: name in s.byName ==> s.byName[name].name == name && s.byName[name].typeKey in s.byType)
    && (forall typeKey :: typeKey in s.byType ==>
          s.byType[typeKey].typeKey == typeKey && LookupByName(s, s.byType[typeKey].name) == Some(s.byType[typeKey]))
  }

  lemma EmptyConsistent()
    ensures Consistent(Empty())
  {
  }

  /** A successful define keeps the registry consistent. */
  lemma DefinePreservesConsistent(s: Tables, t: DataTableType)
    requires Consistent(s)
    requires Define(s, t).Success?
    ensures Consistent(Define(s, t).value)
  {
    var s' := Define(s, t).value;
    forall typeKey | typeKey in s'.byType
      ensures s'.byType[typeKey].typeKey == typeKey && LookupByName(s', s'.byType[typeKey].name) == Some(s'.byType[typeKey])
    {
      if typeKey != t.typeKey {
        var u := s.byType[typeKey];
        assert u.name != t.name;
      }
    }
  }

  /**
   * In a consistent registry the type-keyed answer is what its own name looks up, and
   * the type a name looks up is filed under a type key that has an answer.
   */
  lemma TypeAnswerFoundByName(s: Tables, typeKey: string, name: string)
    requires Consistent(s)
    ensures LookupByType(s, typeKey).Some? ==>
      LookupByName(s, LookupByType(s, typeKey).value.name) == LookupByType(s, typeKey)
    ensures LookupByName(s, name).Some? ==> LookupByType(s, LookupByName(s, name).value.typeKey).Some?
  {
  }

  /**
   * Two types with different names and the same type key: both defines succeed,
   * the second replaces the type-keyed entry, and the first stays reachable by name.
   */
  lemma SameTypeKeyOverwritesTypeEntry(s: Tables, first: DataTableType, second: DataTableType)
    requires first.name !in s.byName && second.name !in s.byName
    requires first.name != second.name && first.typeKey == second.typeKey
    ensures Define(s, first).Success?
    ensures Define(Define(s, first).value, second).Success?
    ensures var s'' := Define(Define(s, first).value, second).value;
      LookupByType(s'', first.typeKey) == Some(second) && LookupByName(s'', first.name) == Some(first)
  {
  }

  /** The registry: `tableTypeByName` and `tableTypeByType`, updated in place by `put`. */
  class DataTableTypeRegistry {
    var tableTypeByName: map<string, DataTableType>
    var tableTypeByType: map<string, DataTableType>

    function State(): Tables
      reads this
    {
      Tables(tableTypeByName, tableTypeByType)
    }

    ghost predicate Valid()
      reads this
    {
      Consistent(State())
    }

    constructor ()
      ensures State() == Empty()
      ensures Valid()
    {
      tableTypeByName := map[];
      tableTypeByType := map[];
      EmptyConsistent();
    }

    /** Throws `DuplicateTypeNameException` (leaving both maps as they were) or puts `t` into both maps. */
    method DefineDataTableType(t: DataTableType) returns (outcome: Outcome<CucumberError>)
      requires Valid()
      modifies this
      ensures Valid()
      ensures Define(old(State()), t).Failure? ==>
        outcome == Fail(Define(old(State()), t).error) && State() == old(State())
      ensures Define(old(State()), t).Success? ==>
        outcome == Pass && State() == Define(old(State()), t).value
    {
      if t.name in tableTypeByName {
        return Fail(DuplicateTypeName(DuplicateNameMessage(t.name)));
      }
      DefinePreservesConsistent(State(), t);
      tableTypeByName := tableTypeByName[t.name := t];
      tableTypeByType := tableTypeByType[t.typeKey := t];
      outcome := Pass;
    }

    /** The type-keyed answer; in a valid registry its name looks up the same type. */
    method LookupTableTypeByType(typeKey: string) returns (r: Option<DataTableType>)
      ensures r == LookupByType(State(), typeKey)
      ensures Valid() && r.Some? ==> LookupByName(State(), r.value.name) == r
    {
      if typeKey in tableTypeByType {
        r := Some(tableTypeByType[typeKey]);
      } else {
        r := None;
      }
      if Valid() {
        TypeAnswerFoundByName(State(), typeKey, "");
      }
    }

    method LookupTableTypeByName(name: string) returns (r: Option<DataTableType>)
      ensures r == LookupByName(State(), name)
    {
      if name in tableTypeByName {
        r := Some(tableTypeByName[name]);
      } else {
        r := None;
      }
    }
  }
}
