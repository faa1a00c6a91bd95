/**
  Report bookkeeping (quickapp/report_manager.py): the `ReportManager`
  tables of report promises and report file names, keyed by the report type
  and the parameters a report was made with, and `make_sections`, which
  arranges a table of reports into a tree of nested divisions for the index
  page.
*/
module ReportManagers {
  import opened Wrappers
  import opened PyStr
  import opened PyValues

  /** A report key: the `frozendict2` of field names to values. */
  type Key = map<string, PyValue>

  /** The field under which a key records the report type. */
  const ReportField: string := "report"

  /** The first argument of `add`: the promise of a report, or anything else
      (known only by its type name). */
  datatype ReportArg = AsPromise(promise: Promise) | NotAPromise(typeName: string)

  /** The `ValueError`s that `add` raises. */
  datatype AddError =
    | ReportTypeNotString(reportType: PyValue)  // `@contract(report_type='str')`, or 'Need a string for report_type, ...'
    | ReportNotPromise(typeName: string)        // 'ReportManager is mean to be given Promise objects, ...'
    | AlreadyAdded(key: Key)                    // 'Already added report for ...'

  // ===========================================================================
  // Keys and file names

  /** The names of the keyword arguments. */
  function Names(kwargs: seq<(string, PyValue)>): set<string> {
    set i | 0 <= i < |kwargs| :: kwargs[i].0
  }

  /** Python keyword arguments never repeat a name. */
  predicate DistinctNames(kwargs: seq<(string, PyValue)>) {
    forall i, j :: 0 <= i < j < |kwargs| ==> kwargs[i].0 != kwargs[j].0
  }

  /** `frozendict2(report=report_type, **kwargs)`: the keyword arguments plus
      the report type under `report`. */
  function KeyOf(reportType: string, kwargs: seq<(string, PyValue)>): (k: Key)
    requires DistinctNames(kwargs) && ReportField !in Names(kwargs)
    ensures k.Keys == Names(kwargs) + {ReportField}
    ensures k[ReportField] == PyStr(reportType)
    ensures forall i :: 0 <= i < |kwargs| ==> k[kwargs[i].0] == kwargs[i].1
  {
    if |kwargs| == 0 then map[ReportField := PyStr(reportType)]
    else
      assert Names(kwargs) == {kwargs[0].0} + Names(kwargs[1..]) by {
        forall n | n in Names(kwargs) ensures n in {kwargs[0].0} + Names(kwargs[1..]) {
          var i :| 0 <= i < |kwargs| && kwargs[i].0 == n;
          if i > 0 { assert kwargs[1..][i - 1].0 == n; }
        }
      }
      assert forall i :: 1 <= i < |kwargs| ==> kwargs[i] == kwargs[1..][i - 1];
      KeyOf(reportType, kwargs[1..])[kwargs[0].0 := kwargs[0].1]
  }

  /** `map(str, kwargs.values())`, in the order the keyword arguments are given. */
  function ValueStrings(kwargs: seq<(string, PyValue)>): (r: seq<string>)
    ensures |r| == |kwargs|
  {
    seq(|kwargs|, i requires 0 <= i < |kwargs| => Str(kwargs[i].1))
  }

  /** `"_".join(map(str, kwargs.values())).replace('/', '_')` */
  function BaseName(kwargs: seq<(string, PyValue)>): (b: string)
    ensures '/' !in b
  {
    ReplaceChar(Join("_", ValueStrings(kwargs)), '/', '_')
  }

  /** `os.path.join(os.path.join(outdir, report_type), basename) + '.html'` */
  function Filename(outdir: string, reportType: string, kwargs: seq<(string, PyValue)>): string {
    PathJoin(PathJoin(outdir, reportType), BaseName(kwargs)) + ".html"
  }

  /** `os.path.join(outdir, 'report_index.html')` */
  function DefaultIndexFilename(outdir: string): string {
    PathJoin(outdir, "report_index.html")
  }

  /** The index file sits directly in the output directory. */
  lemma DefaultIndexFilenameInOutdir(outdir: string)
    ensures EndsWith(DefaultIndexFilename(outdir), "report_index.html")
    ensures outdir != "" && !EndsWith(outdir, "/") ==> DefaultIndexFilename(outdir) == outdir + "/report_index.html"
  {
    var r := DefaultIndexFilename(outdir);
    assert "report_index.html"[0] == 'r';
    assert r[|r| - 17..] == "report_index.html";
  }

  /** Every report file is an `.html` file named after the parameter values,
      in the directory of its report type under the output directory. */
  lemma FilenameLayout(outdir: string, reportType: string, kwargs: seq<(string, PyValue)>)
    requires outdir != "" && !EndsWith(outdir, "/")
    requires reportType != "" && '/' !in reportType
    requires BaseName(kwargs) != ""
    ensures Filename(outdir, reportType, kwargs) == outdir + "/" + reportType + "/" + BaseName(kwargs) + ".html"
  {
    var d := PathJoin(outdir, reportType);
    assert !StartsWith(reportType, "/") by {
      assert reportType[0] in reportType;
    }
    assert d == outdir + "/" + reportType;
    var b := BaseName(kwargs);
    assert !StartsWith(b, "/") by {
      assert b[0] in b;
    }
    assert !EndsWith(d, "/") by {
      assert d[|d| - 1] == reportType[|reportType| - 1];
      assert reportType[|reportType| - 1] in reportType;
    }
  }

  // ===========================================================================
  // The report manager

  class ReportManager {
    const outdir: string
    const indexFilename: string
    /** report key -> promise of the report */
    var allreports: map<Key, Promise>
    /** report key -> file the report is written to */
    var allreportsFilename: map<Key, string>

    /** Both tables always hold the same keys. */
    ghost predicate Valid()
      reads this
    {
      allreports.Keys == allreportsFilename.Keys
    }

    /** `ReportManager(outdir, index_filename=None)` */
    constructor(outdir: string, indexFilename: Option<string>)
      ensures Valid()
      ensures this.outdir == outdir
      ensures this.indexFilename == if indexFilename.Some? then indexFilename.value else DefaultIndexFilename(outdir)
      ensures allreports == map[] && allreportsFilename == map[]
    {
      this.outdir := outdir;
      this.indexFilename := if indexFilename.None? then DefaultIndexFilename(outdir) else indexFilename.value;
      allreports := map[];
      allreportsFilename := map[];
    }

    /** `add(report, report_type, **kwargs)`. The keyword arguments cannot be
        named `report` or `report_type`, which Python binds to the first two
        parameters. */
    method Add(report: ReportArg, reportType: PyValue, kwargs: seq<(string, PyValue)>) returns (r: Result<(), AddError>)
      requires Valid()
      requires DistinctNames(kwargs) && ReportField !in Names(kwargs) && "report_type" !in Names(kwargs)
      modifies this
      ensures Valid()
      ensures !reportType.PyStr? ==> r == Err(ReportTypeNotString(reportType))
      ensures reportType.PyStr? && report.NotAPromise? ==> r == Err(ReportNotPromise(report.typeName))
      ensures reportType.PyStr? && report.AsPromise? && KeyOf(reportType.s, kwargs) in old(allreports) ==>
                r == Err(AlreadyAdded(KeyOf(reportType.s, kwargs)))
      ensures reportType.PyStr? && report.AsPromise? && KeyOf(reportType.s, kwargs) !in old(allreports) ==>
                r == Ok(()) &&
                allreports == old(allreports)[KeyOf(reportType.s, kwargs) := report.promise] &&
                allreportsFilename == old(allreportsFilename)[KeyOf(reportType.s, kwargs) := Filename(outdir, reportType.s, kwargs)]
      ensures r.Err? ==> allreports == old(allreports) && allreportsFilename == old(allreportsFilename)
    {
      if !reportType.PyStr? {
        return Err(ReportTypeNotString(reportType));
      }
      if report.NotAPromise? {
        return Err(ReportNotPromise(report.typeName));
      }
      var key := KeyOf(reportType.s, kwargs);
      if key in allreports {
        return Err(AlreadyAdded(key));
      }
      allreports := allreports[key := report.promise];
      var dirname := PathJoin(outdir, reportType.s);
      var basename := BaseName(kwargs);
      // the source raises ValueError(basename) here if '/' in basename; it cannot be
      assert '/' !in basename;
      allreportsFilename := allreportsFilename[key := PathJoin(dirname, basename) + ".html"];
      return Ok(());
    }
  }

  // ===========================================================================
  // make_sections

  /** The nested dictionaries `make_sections` returns: `type='sample'` or
      `type='division'`. */
  datatype Section<V> =
    | Sample(common: Key, key: Key, value: V)
    | Division(field: string, division: map<PyValue, Section<V>>, common: Key)

  /** 'Not all records of the same type have the same fields' (also used for
      an empty table, whose handling belongs to `StoreResults`). */
  datatype SectionError = NotAllSameFields

  /** Every field name used by some key of the table. */
  function AllFields<V>(store: map<Key, V>): set<string> {
    set k, f | k in store && f in k :: f
  }

  predicate InAllKeys<V>(store: map<Key, V>, f: string) {
    forall k :: k in store ==> f in k
  }

  /** The distinct values of a field present in every key. */
  function FieldValues<V>(store: map<Key, V>, f: string): set<PyValue>
    requires InAllKeys(store, f)
  {
    set k | k in store :: k[f]
  }

  /** `len(list(allruns.groups_by_field_value(field)))` */
  function ValueCount<V>(store: map<Key, V>, f: string): nat
    requires InAllKeys(store, f)
  {
    |FieldValues(store, f)|
  }

  /** The entries whose key has `f == v`, with `f` removed from their keys:
      `groups_by_field_value` followed by `remove_field`. */
  function Group<V>(store: map<Key, V>, f: string, v: PyValue): (g: map<Key, V>)
    requires InAllKeys(store, f)
    ensures AllFields(g) <= AllFields(store) - {f}
    ensures forall k :: k in store && k[f] == v ==> k - {f} in g && g[k - {f}] == store[k]
    ensures forall k' :: k' in g ==> exists k :: k in store && k[f] == v && k' == k - {f}
  {
    RemoveFieldInjective(store, f, v);
    map k | k in store && k[f] == v :: k - {f} := store[k]
  }

  /** `allruns.field_names_in_all_keys()`, in the table's field order. */
  function CandidateFields<V>(store: map<Key, V>, fieldOrder: seq<string>): (r: seq<string>)
    ensures forall i :: 0 <= i < |r| ==> InAllKeys(store, r[i])
    ensures forall f :: f in r <==> f in fieldOrder && InAllKeys(store, f)
  {
    if |fieldOrder| == 0 then []
    else if InAllKeys(store, fieldOrder[0]) then [fieldOrder[0]] + CandidateFields(store, fieldOrder[1..])
    else CandidateFields(store, fieldOrder[1..])
  }

  /** The position of the first smallest count: what a stable sort on the
      counts puts first. */
  function FirstMinimum(counts: seq<nat>): (i: nat)
    requires |counts| > 0
    ensures i < |counts|
    ensures forall j :: 0 <= j < |counts| ==> counts[i] <= counts[j]
    ensures forall j :: 0 <= j < i ==> counts[j] > counts[i]
  {
    if |counts| == 1 then 0
    else
      var i := 1 + FirstMinimum(counts[1..]);
      assert forall j :: 1 <= j < |counts| ==> counts[j] == counts[1..][j - 1];
      if counts[0] <= counts[i] then 0 else i
  }

  /** `fields_size.sort(key=lambda x: x[1])` then `fields_size[0][0]`: a
      field with the fewest distinct values; the sort is stable, so among
      ties the earliest field wins. */
  function ChooseField<V>(store: map<Key, V>, fields: seq<string>): (f: string)
    requires |fields| > 0 && forall i :: 0 <= i < |fields| ==> InAllKeys(store, fields[i])
    ensures f in fields && InAllKeys(store, f)
  {
    fields[FirstMinimum(Counts(store, fields))]
  }

  /** `fields_size`: the number of distinct values of each field. */
  function Counts<V>(store: map<Key, V>, fields: seq<string>): (c: seq<nat>)
    requires forall i :: 0 <= i < |fields| ==> InAllKeys(store, fields[i])
    ensures |c| == |fields|
    ensures forall i :: 0 <= i < |fields| ==> c[i] == ValueCount(store, fields[i])
  {
    seq(|fields|, i requires 0 <= i < |fields| => ValueCount(store, fields[i]))
  }

  /** The chosen field has the fewest values, and every field before it has
      strictly more. */
  lemma ChooseFieldFewest<V>(store: map<Key, V>, fields: seq<string>)
    requires |fields| > 0 && forall i :: 0 <= i < |fields| ==> InAllKeys(store, fields[i])
    ensures var f := ChooseField(store, fields);
      (forall i :: 0 <= i < |fields| ==> ValueCount(store, f) <= ValueCount(store, fields[i])) &&
      exists i :: 0 <= i < |fields| && fields[i] == f &&
        forall j :: 0 <= j < i ==> ValueCount(store, fields[j]) > ValueCount(store, f)
  {
    var i := FirstMinimum(Counts(store, fields));
    assert fields[i] == ChooseField(store, fields);
  }

  /** `make_sections(allruns, common)`. `fieldOrder` lists every field of the
      table in the order `StoreResults` enumerates them. */
  function MakeSections<V>(store: map<Key, V>, common: Key, fieldOrder: seq<string>): (r: Result<Section<V>, SectionError>)
    requires forall f :: f in AllFields(store) ==> f in fieldOrder
    ensures |store| == 1 ==>
              r.Ok? && r.value.Sample? && r.value.common == common &&
              r.value.key in store && r.value.value == store[r.value.key]
    ensures |store| == 0 ==> r == Err(NotAllSameFields)
    ensures |store| > 1 && CandidateFields(store, fieldOrder) == [] ==> r == Err(NotAllSameFields)
    decreases AllFields(store)
  {
    if |store| == 1 then
      OnlyKey(store);
      var key :| key in store;
      Ok(Sample(common, key, store[key]))
    else if |store| == 0 then Err(NotAllSameFields)
    else
      var fields := CandidateFields(store, fieldOrder);
      if |fields| == 0 then Err(NotAllSameFields)
      else
        var f := ChooseField(store, fields);
        GroupsHaveFewerFields(store, f);
        var children: map<PyValue, Result<Section<V>, SectionError>> :=
          map v | v in FieldValues(store, f) :: MakeSections(Group(store, f, v), common[f := v], fieldOrder);
        if exists v :: v in children && children[v].Err? then Err(NotAllSameFields)
        else Ok(Division(f, map v | v in children :: children[v].value, common))
  }

  /** A table of two or more entries is divided on the first field, among
      those present in every key, with the fewest distinct values; there is
      one subsection per value of that field, each made from the entries with
      that value, and each records the value in its `common`. */
  lemma MakeSectionsDivides<V>(store: map<Key, V>, common: Key, fieldOrder: seq<string>)
    requires forall f :: f in AllFields(store) ==> f in fieldOrder
    requires |store| > 1 && MakeSections(store, common, fieldOrder).Ok?
    ensures var s := MakeSections(store, common, fieldOrder).value;
      s.Division? && s.common == common &&
      CandidateFields(store, fieldOrder) != [] &&
      s.field == ChooseField(store, CandidateFields(store, fieldOrder)) &&
      s.division.Keys == FieldValues(store, s.field) &&
      forall v :: v in s.division ==>
        MakeSections(Group(store, s.field, v), common[s.field := v], fieldOrder) == Ok(s.division[v])
  {
  }

  /** The samples at the leaves of a section tree, each with its full key:
      the values fixed on the way down plus the key left at the leaf. */
  ghost function Leaves<V>(s: Section<V>): set<(Key, V)>
    decreases s
  {
    match s
    case Sample(c, k, v) => {(c + k, v)}
    case Division(_, d, _) => set v, e | v in d && e in Leaves(d[v]) :: e
  }

  /** `make_sections` neither loses nor invents a report: the leaves of the
      tree are exactly the entries of the table, with the common fields
      restored to their keys. */
  lemma {:induction false} MakeSectionsLeaves<V>(store: map<Key, V>, common: Key, fieldOrder: seq<string>)
    requires forall f :: f in AllFields(store) ==> f in fieldOrder
    requires MakeSections(store, common, fieldOrder).Ok?
    ensures Leaves(MakeSections(store, common, fieldOrder).value) == Entries(store, common)
    decreases AllFields(store)
  {
    if |store| == 1 {
      OnlyKey(store);
    } else {
      MakeSectionsDivides(store, common, fieldOrder);
      var s := MakeSections(store, common, fieldOrder).value;
      var f := s.field;
      GroupsHaveFewerFields(store, f);
      forall v | v in s.division
        ensures Leaves(s.division[v]) == Restored(store, common, f, v)
      {
        var g := Group(store, f, v);
        MakeSectionsLeaves(g, common[f := v], fieldOrder);
        assert MakeSections(g, common[f := v], fieldOrder) == Ok(s.division[v]);
        GroupRestores(store, common, f, v);
      }
      LeavesOfDivision(store, common, s);
    }
  }

  /** The entries of a table, each with its full key. */
  ghost function Entries<V>(store: map<Key, V>, common: Key): set<(Key, V)> {
    set k | k in store :: (common + k, store[k])
  }

  /** The entries of one group, with their full keys. */
  ghost function Restored<V>(store: map<Key, V>, common: Key, f: string, v: PyValue): set<(Key, V)>
    requires InAllKeys(store, f)
  {
    set k | k in store && k[f] == v :: (common + k, store[k])
  }

  /** A division whose subsections hold the groups holds the whole table. */
  lemma LeavesOfDivision<V>(store: map<Key, V>, common: Key, s: Section<V>)
    requires s.Division? && InAllKeys(store, s.field)
    requires s.division.Keys == FieldValues(store, s.field)
    requires forall v :: v in s.division ==> Leaves(s.division[v]) == Restored(store, common, s.field, v)
    ensures Leaves(s) == Entries(store, common)
  {
    LeavesWithinEntries(store, common, s);
    EntriesWithinLeaves(store, common, s);
  }

  lemma LeavesWithinEntries<V>(store: map<Key, V>, common: Key, s: Section<V>)
    requires s.Division? && InAllKeys(store, s.field)
    requires forall v :: v in s.division ==> Leaves(s.division[v]) == Restored(store, common, s.field, v)
    ensures Leaves(s) <= Entries(store, common)
  {
    forall e | e in Leaves(s)
      ensures e in Entries(store, common)
    {
      var v :| v in s.division && e in Leaves(s.division[v]);
      assert e in Restored(store, common, s.field, v);
    }
  }

  lemma EntriesWithinLeaves<V>(store: map<Key, V>, common: Key, s: Section<V>)
    requires s.Division? && InAllKeys(store, s.field)
    requires s.division.Keys == FieldValues(store, s.field)
    requires forall v :: v in s.division ==> Leaves(s.division[v]) == Restored(store, common, s.field, v)
    ensures Entries(store, common) <= Leaves(s)
  {
    var f := s.field;
    forall k | k in store
      ensures (common + k, store[k]) in Leaves(s)
    {
      assert k[f] in s.division;
      assert (common + k, store[k]) in Restored(store, common, f, k[f]);
    }
  }

  /** Restoring the split field from the subsection's `common` rebuilds the
      original keys of a group. */
  lemma GroupRestores<V>(store: map<Key, V>, common: Key, f: string, v: PyValue)
    requires InAllKeys(store, f)
    ensures Entries(Group(store, f, v), common[f := v]) == Restored(store, common, f, v)
  {
    RestoredWithinGroup(store, common, f, v);
    GroupWithinRestored(store, common, f, v);
  }

  lemma RestoredWithinGroup<V>(store: map<Key, V>, common: Key, f: string, v: PyValue)
    requires InAllKeys(store, f)
    ensures Restored(store, common, f, v) <= Entries(Group(store, f, v), common[f := v])
  {
    var g := Group(store, f, v);
    forall k | k in store && k[f] == v
      ensures (common + k, store[k]) in Entries(g, common[f := v])
    {
      var k' := k - {f};
      assert k' in g && g[k'] == store[k];
      RestoreKey(common, k, f, v);
      assert (common[f := v] + k', g[k']) in Entries(g, common[f := v]);
    }
  }

  lemma GroupWithinRestored<V>(store: map<Key, V>, common: Key, f: string, v: PyValue)
    requires InAllKeys(store, f)
    ensures Entries(Group(store, f, v), common[f := v]) <= Restored(store, common, f, v)
  {
    var g := Group(store, f, v);
    forall k' | k' in g
      ensures (common[f := v] + k', g[k']) in Restored(store, common, f, v)
    {
      var k :| k in store && k[f] == v && k' == k - {f};
      assert g[k'] == store[k];
      RestoreKey(common, k, f, v);
      assert (common + k, store[k]) in Restored(store, common, f, v);
    }
  }

  /** Putting the field back into `common` and merging the rest of the key
      gives the original key merged into `common`. */
  lemma RestoreKey(common: Key, k: Key, f: string, v: PyValue)
    requires f in k && k[f] == v
    ensures common[f := v] + (k - {f}) == common + k
  {
  }

  /** A table with one entry has one key: `allruns.keys()[0]`. */
  lemma OnlyKey<V>(store: map<Key, V>)
    requires |store| == 1
    ensures forall a, b :: a in store && b in store ==> a == b
  {
    forall a, b | a in store && b in store ensures a == b {
      if a != b {
        assert {a, b} <= store.Keys;
        assert |{a, b}| == 2;
        SubsetCardinality({a, b}, store.Keys);
      }
    }
  }

  lemma SubsetCardinality<T>(a: set<T>, b: set<T>)
    requires a <= b
    ensures |a| <= |b|
  {
    assert b == a + (b - a);
  }

  /** Within one group, removing the split field keeps the keys apart. */
  lemma RemoveFieldInjective<V>(store: map<Key, V>, f: string, v: PyValue)
    requires InAllKeys(store, f)
    ensures forall k1, k2 :: k1 in store && k2 in store && k1[f] == v && k2[f] == v && k1 - {f} == k2 - {f} ==> k1 == k2
  {
    forall k1, k2 | k1 in store && k2 in store && k1[f] == v && k2[f] == v && k1 - {f} == k2 - {f}
      ensures k1 == k2
    {
      assert k1.Keys == (k1 - {f}).Keys + {f};
      assert k2.Keys == (k2 - {f}).Keys + {f};
      forall x | x in k1 ensures k1[x] == k2[x] {
        if x != f { assert k1[x] == (k1 - {f})[x]; }
      }
    }
  }

  /** Removing the split field leaves fewer field names, which is why
      `make_sections` terminates. */
  lemma GroupsHaveFewerFields<V>(store: map<Key, V>, f: string)
    requires InAllKeys(store, f) && |store| > 0
    ensures forall v :: AllFields(Group(store, f, v)) < AllFields(store)
  {
    var k0 :| k0 in store;
    assert f in AllFields(store);
  }
}
