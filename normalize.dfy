/**
 * Field coercion: turning raw, user-supplied task records into `NormalizedTask` values,
 * collecting one warning per field that was present but unusable.
 *
 * Python's own coercions (`int(v)`, `float(v)`, `date.fromisoformat(v)`, `str(v)`) are not
 * modelled; a raw field carries their outcome instead.
 */
module Normalize {
  import opened Wrappers
  import Text
  import opened Calendar
  import Seqs

  /**
   * A field as `t.get(name)` sees it: absent or `None`, the empty string, the empty list, or
   * any other value together with the outcome of coercing it (`None` when the coercion raised).
   */
  datatype RawValue<T> = Missing | EmptyText | EmptyList | Given(parsed: Option<T>)

  /** The `id` field: the key absent (so `idx + 1` is used), or a value and the outcome of `int()` on it. */
  datatype RawId = NoIdKey | IdValue(asInt: Option<int>)

  /**
   * The `dependencies` field: absent or any falsy value, a truthy value that is not a list,
   * or a list with the outcome of `int()` on each element.
   */
  datatype RawDeps = NoDeps | NotAList | DepsList(items: seq<Option<int>>)

  /** A raw record; `title` is the text `str()` gives for the title value ("" when the key is absent). */
  datatype RawTask = RawTask(
    id: RawId,
    title: string,
    dueDate: RawValue<Date>,
    estimatedHours: RawValue<real>,
    importance: RawValue<int>,
    dependencies: RawDeps)

  datatype NormalizedTask = NormalizedTask(
    id: int,
    title: string,
    dueDate: Option<Date>,
    estimatedHours: Option<real>,
    importance: Option<int>,
    dependencies: seq<int>)

  /** The warnings `normalize_tasks` appends, without their message text. */
  datatype Warning =
    | InvalidId(index: nat, newId: int)
    | InvalidDueDate(task: int)
    | InvalidHours(task: int)
    | InvalidImportance(task: int)
    | DependenciesNotList(task: int)
    | InvalidDependency(task: int)

  /** `value in (None, "", [])`: a field that counts as not supplied. */
  predicate NotSupplied<T>(v: RawValue<T>) {
    v.Missing? || v.EmptyText? || v.EmptyList?
  }

  /** `_parse_date`: a date only when a supplied value parsed as one. */
  function ParseDate(v: RawValue<Date>): (r: Option<Date>)
    ensures r.Some? <==> v.Given? && v.parsed.Some?
    ensures r.Some? ==> r.value == v.parsed.value
  {
    if v.Given? then v.parsed else None
  }

  /** `_parse_float`: a number only when the value converts and is strictly positive. */
  function ParseFloat(v: RawValue<real>): (r: Option<real>)
    ensures r.Some? ==> r.value > 0.0
    ensures r.Some? <==> v.Given? && v.parsed.Some? && v.parsed.value > 0.0
    ensures r.Some? ==> r.value == v.parsed.value
  {
    match v
    case Missing => None
    case EmptyText => None
    case EmptyList => None  // float([]) raises
    case Given(p) => if p.None? || p.value <= 0.0 then None else p
  }

  /** `_clamp_int`: the converted integer pulled into [lo, hi], or nothing when conversion fails. */
  function ClampInt(v: RawValue<int>, lo: int, hi: int): (r: Option<int>)
    ensures r.Some? <==> v.Given? && v.parsed.Some?
    ensures r.Some? && lo <= hi ==> lo <= r.value <= hi
    ensures r.Some? && lo <= v.parsed.value <= hi ==> r.value == v.parsed.value
    ensures r.Some? && v.parsed.value < lo ==> r.value == lo
    ensures r.Some? && lo <= hi < v.parsed.value ==> r.value == hi
  {
    match v
    case Missing => None
    case EmptyText => None
    case EmptyList => None  // int([]) raises
    case Given(p) =>
      if p.None? then None
      else
        var m := if hi < p.value then hi else p.value;
        Some(if lo > m then lo else m)
  }

  const ImportanceMin: int := 1
  const ImportanceMax: int := 10

  /** The id of the task at index `idx`: its own integer id, else `idx + 1`. */
  function TaskId(idx: nat, raw: RawId): int {
    match raw
    case NoIdKey => idx + 1
    case IdValue(p) => p.GetOr(idx + 1)
  }

  function IdWarnings(idx: nat, raw: RawId): seq<Warning> {
    if raw == IdValue(None) then [InvalidId(idx, idx + 1)] else []
  }

  function Title(raw: string, tid: int): string {
    var s := Text.Strip(raw);
    if s == [] then "Untitled Task " + Text.IntToString(tid) else s
  }

  /** The converted dependency ids in order, and one warning per element that did not convert. */
  function ParseDeps(tid: int, items: seq<Option<int>>): (r: (seq<int>, seq<Warning>))
    ensures |r.0| + |r.1| == |items|
    ensures forall x :: x in r.0 <==> Some(x) in items
    ensures forall w :: w in r.1 ==> w == InvalidDependency(tid)
  {
    if items == [] then ([], [])
    else
      var front, last := items[..|items| - 1], items[|items| - 1];
      var r := ParseDeps(tid, front);
      assert items == front + [last];
      if last.Some? then (r.0 + [last.value], r.1) else (r.0, r.1 + [InvalidDependency(tid)])
  }

  /**
   * The elements are handled one after another: the ids and warnings of a concatenation are those
   * of its first part followed by those of its second, so each list keeps the elements' order.
   */
  lemma {:induction false} ParseDepsAppend(tid: int, a: seq<Option<int>>, b: seq<Option<int>>)
    ensures ParseDeps(tid, a + b).0 == ParseDeps(tid, a).0 + ParseDeps(tid, b).0
    ensures ParseDeps(tid, a + b).1 == ParseDeps(tid, a).1 + ParseDeps(tid, b).1
    decreases |b|
  {
    if b == [] {
      assert a + b == a;
    } else {
      var ab, front, last := a + b, b[..|b| - 1], b[|b| - 1];
      assert ab[..|ab| - 1] == a + front && ab[|ab| - 1] == last;
      ParseDepsAppend(tid, a, front);
      var rab, ra, rb := ParseDeps(tid, a + front), ParseDeps(tid, a), ParseDeps(tid, front);
      if last.Some? {
        assert ParseDeps(tid, ab) == (rab.0 + [last.value], rab.1);
        assert ParseDeps(tid, b) == (rb.0 + [last.value], rb.1);
        assert rab.0 + [last.value] == ra.0 + (rb.0 + [last.value]);
      } else {
        assert ParseDeps(tid, ab) == (rab.0, rab.1 + [InvalidDependency(tid)]);
        assert ParseDeps(tid, b) == (rb.0, rb.1 + [InvalidDependency(tid)]);
        assert rab.1 + [InvalidDependency(tid)] == ra.1 + (rb.1 + [InvalidDependency(tid)]);
      }
    }
  }

  /** Each id is kept as often as it converted, and there are as many warnings as failures. */
  lemma {:induction false} ParseDepsCounts(tid: int, items: seq<Option<int>>)
    ensures forall x :: multiset(ParseDeps(tid, items).0)[x] == multiset(items)[Some(x)]
    ensures |ParseDeps(tid, items).1| == multiset(items)[None]
  {
    if items != [] {
      var front, last := items[..|items| - 1], items[|items| - 1];
      assert items == front + [last];
      assert multiset(items) == multiset(front) + multiset{last};
      ParseDepsCounts(tid, front);
      var r := ParseDeps(tid, front);
      if last.Some? {
        assert ParseDeps(tid, items) == (r.0 + [last.value], r.1);
        assert multiset(r.0 + [last.value]) == multiset(r.0) + multiset{last.value};
      } else {
        assert ParseDeps(tid, items) == (r.0, r.1 + [InvalidDependency(tid)]);
      }
    }
  }

  /** One element: a converted id is kept, a failed one becomes a warning. */
  lemma ParseDepsSingle(tid: int, x: Option<int>)
    ensures x.Some? ==> ParseDeps(tid, [x]) == ([x.value], [])
    ensures x.None? ==> ParseDeps(tid, [x]) == ([], [InvalidDependency(tid)])
  {
    assert [x][..0] == [] && ParseDeps(tid, []) == ([], []);
    if x.Some? {
      assert [] + [x.value] == [x.value];
    } else {
      assert [] + [InvalidDependency(tid)] == [InvalidDependency(tid)];
    }
  }

  function Dependencies(tid: int, raw: RawDeps): (seq<int>, seq<Warning>) {
    match raw
    case NoDeps => ([], [])
    case NotAList => ([], [DependenciesNotList(tid)])
    case DepsList(items) => ParseDeps(tid, items)
  }

  /** The warnings for the three scalar fields: present (not blank) but unusable. */
  function FieldWarnings(tid: int, t: RawTask): seq<Warning> {
    WarnIf(!NotSupplied(t.dueDate) && ParseDate(t.dueDate).None?, InvalidDueDate(tid))
    + WarnIf(!NotSupplied(t.estimatedHours) && ParseFloat(t.estimatedHours).None?, InvalidHours(tid))
    + WarnIf(!NotSupplied(t.importance) && ClampInt(t.importance, ImportanceMin, ImportanceMax).None?,
             InvalidImportance(tid))
  }

  /** One warning when `c` holds, none otherwise. */
  function WarnIf(c: bool, w: Warning): seq<Warning> {
    if c then [w] else []
  }

  /** The task `normalize_tasks` builds from record `t` at index `idx`. */
  function NormalizeTask(idx: nat, t: RawTask): (r: NormalizedTask)
    ensures r.id == TaskId(idx, t.id) && r.title != []
    ensures r.importance.Some? ==> ImportanceMin <= r.importance.value <= ImportanceMax
    ensures r.estimatedHours.Some? ==> r.estimatedHours.value > 0.0
    ensures |r.dependencies| <= (if t.dependencies.DepsList? then |t.dependencies.items| else 0)
  {
    var tid := TaskId(idx, t.id);
    NormalizedTask(
      tid,
      Title(t.title, tid),
      ParseDate(t.dueDate),
      ParseFloat(t.estimatedHours),
      ClampInt(t.importance, ImportanceMin, ImportanceMax),
      Dependencies(tid, t.dependencies).0)
  }

  /** The warnings that record `t` at index `idx` adds, in the order the source appends them. */
  function TaskWarnings(idx: nat, t: RawTask): seq<Warning> {
    var tid := TaskId(idx, t.id);
    IdWarnings(idx, t.id) + FieldWarnings(tid, t) + Dependencies(tid, t.dependencies).1
  }

  /** The tasks built from the first `n` records: one per record, in record order. */
  function TasksUpTo(raw: seq<RawTask>, n: nat): (r: seq<NormalizedTask>)
    requires n <= |raw|
    ensures |r| == n
  {
    Seqs.MapUpTo(NormalizeTask, raw, n)
  }

  /** Task `i` of the list is the normalization of record `i`. */
  lemma TasksUpToAt(raw: seq<RawTask>, n: nat, i: nat)
    requires i < n <= |raw|
    ensures TasksUpTo(raw, n)[i] == NormalizeTask(i, raw[i])
  {
    Seqs.MapUpToAt(NormalizeTask, raw, n, i);
  }

  /** The warnings of the first `n` records, in order. */
  function WarningsUpTo(raw: seq<RawTask>, n: nat): seq<Warning>
    requires n <= |raw|
  {
    if n == 0 then [] else WarningsUpTo(raw, n - 1) + TaskWarnings(n - 1, raw[n - 1])
  }

  /** Every task built from a batch has its importance within [1, 10] and its hours strictly positive. */
  lemma NormalizedFieldsInRange(raw: seq<RawTask>, n: nat, i: nat)
    requires i < n <= |raw|
    ensures var t := TasksUpTo(raw, n)[i];
      && (t.importance.Some? ==> ImportanceMin <= t.importance.value <= ImportanceMax)
      && (t.estimatedHours.Some? ==> t.estimatedHours.value > 0.0)
  {
    TasksUpToAt(raw, n, i);
  }

  /** An id that is absent or does not convert becomes `idx + 1`; only the latter is warned about. */
  lemma IdFallback(idx: nat, t: RawTask)
    ensures t.id.NoIdKey? ==> NormalizeTask(idx, t).id == idx + 1
    ensures t.id.NoIdKey? ==> forall w :: w in TaskWarnings(idx, t) ==> !w.InvalidId?
    ensures t.id == IdValue(None) ==>
      NormalizeTask(idx, t).id == idx + 1 && TaskWarnings(idx, t)[0] == InvalidId(idx, idx + 1)
    ensures t.id.IdValue? && t.id.asInt.Some? ==> NormalizeTask(idx, t).id == t.id.asInt.value
  {
    var tid := TaskId(idx, t.id);
    var ws := TaskWarnings(idx, t);
    assert ws == IdWarnings(idx, t.id) + (FieldWarnings(tid, t) + Dependencies(tid, t.dependencies).1);
    if t.id.NoIdKey? {
      forall w | w in ws ensures !w.InvalidId? {
        assert w in FieldWarnings(tid, t) || w in Dependencies(tid, t.dependencies).1;
      }
    }
  }

  /**
   * A due date, hours estimate or importance that was supplied but is unusable becomes missing and is
   * warned about; one that was not supplied becomes missing silently.
   */
  lemma InvalidFieldWarns(idx: nat, t: RawTask)
    ensures var n, ws, tid := NormalizeTask(idx, t), TaskWarnings(idx, t), TaskId(idx, t.id);
      && (InvalidDueDate(tid) in ws <==> !NotSupplied(t.dueDate) && n.dueDate.None?)
      && (InvalidHours(tid) in ws <==> !NotSupplied(t.estimatedHours) && n.estimatedHours.None?)
      && (InvalidImportance(tid) in ws <==> !NotSupplied(t.importance) && n.importance.None?)
  {
    var tid := TaskId(idx, t.id);
    FieldFlags(IdWarnings(idx, t.id), Dependencies(tid, t.dependencies).1, tid,
               !NotSupplied(t.dueDate) && ParseDate(t.dueDate).None?,
               !NotSupplied(t.estimatedHours) && ParseFloat(t.estimatedHours).None?,
               !NotSupplied(t.importance) && ClampInt(t.importance, ImportanceMin, ImportanceMax).None?);
  }

  /**
   * Between the id warnings and the dependency warnings, each field warning is present exactly
   * when its flag is set.
   */
  lemma FieldFlags(ids: seq<Warning>, deps: seq<Warning>, tid: int, due: bool, hours: bool, imp: bool)
    requires forall w :: w in ids ==> w.InvalidId?
    requires forall w :: w in deps ==> w.DependenciesNotList? || w.InvalidDependency?
    ensures var ws := ids + (WarnIf(due, InvalidDueDate(tid)) + WarnIf(hours, InvalidHours(tid))
                             + WarnIf(imp, InvalidImportance(tid))) + deps;
      && (InvalidDueDate(tid) in ws <==> due)
      && (InvalidHours(tid) in ws <==> hours)
      && (InvalidImportance(tid) in ws <==> imp)
  {
    var a, b, c := WarnIf(due, InvalidDueDate(tid)), WarnIf(hours, InvalidHours(tid)), WarnIf(imp, InvalidImportance(tid));
    InMiddle(ids, a + b + c, deps, InvalidDueDate(tid));
    InMiddle(ids, a + b + c, deps, InvalidHours(tid));
    InMiddle(ids, a + b + c, deps, InvalidImportance(tid));
    InMiddle(a, b, c, InvalidDueDate(tid));
    InMiddle(a, b, c, InvalidHours(tid));
    InMiddle(a, b, c, InvalidImportance(tid));
  }

  /** Membership in a three-part concatenation is membership in one of the parts. */
  lemma InMiddle(a: seq<Warning>, b: seq<Warning>, c: seq<Warning>, w: Warning)
    ensures w in a + b + c <==> w in a || w in b || w in c
  {
  }

  /** A blank title is replaced by "Untitled Task <id>", and the title never causes a warning. */
  lemma BlankTitle(idx: nat, t: RawTask, other: string)
    ensures Text.Strip(t.title) == [] ==>
      NormalizeTask(idx, t).title == "Untitled Task " + Text.IntToString(NormalizeTask(idx, t).id)
    ensures Text.Strip(t.title) != [] ==> NormalizeTask(idx, t).title == Text.Strip(t.title)
    ensures TaskWarnings(idx, t) == TaskWarnings(idx, t.(title := other))
  {
  }

  /** Dependencies that are not a list are dropped with one warning; a list keeps every id that converts, as often as it occurs. */
  lemma DependenciesCoerced(idx: nat, t: RawTask)
    ensures var tid := TaskId(idx, t.id);
      && (t.dependencies.NotAList? ==>
            NormalizeTask(idx, t).dependencies == [] && DependenciesNotList(tid) in TaskWarnings(idx, t))
      && (t.dependencies.NoDeps? ==> NormalizeTask(idx, t).dependencies == [])
      && (t.dependencies.DepsList? ==> forall x ::
            multiset(NormalizeTask(idx, t).dependencies)[x] == multiset(t.dependencies.items)[Some(x)])
      && (t.dependencies.DepsList? ==> forall x ::
            x in NormalizeTask(idx, t).dependencies <==> Some(x) in t.dependencies.items)
  {
    if t.dependencies.DepsList? {
      ParseDepsCounts(TaskId(idx, t.id), t.dependencies.items);
    }
  }

  /**
   * The garbage record of the resilience test: id "100", an unparsable due date, -5 hours, importance
   * "High" and dependencies "None" give task 100 with no due date, hours or importance, no
   * dependencies, and the due-date warning first.
   */
  lemma GarbageRecordScenario(title: string)
    requires Text.Strip(title) != []
    ensures var t := RawTask(IdValue(Some(100)), title, Given(None), Given(Some(-5.0)), Given(None), NotAList);
      && NormalizeTask(0, t) == NormalizedTask(100, Text.Strip(title), None, None, None, [])
      && TaskWarnings(0, t) == [InvalidDueDate(100), InvalidHours(100), InvalidImportance(100), DependenciesNotList(100)]
  {
    var t := RawTask(IdValue(Some(100)), title, Given(None), Given(Some(-5.0)), Given(None), NotAList);
    assert FieldWarnings(100, t) == [InvalidDueDate(100), InvalidHours(100), InvalidImportance(100)];
  }

  /** The loop over a dependency list: converted ids appended in order, a warning per failure. */
  method CollectDependencies(tid: int, raw: RawDeps) returns (deps: seq<int>, warnings: seq<Warning>)
    ensures deps == Dependencies(tid, raw).0 && warnings == Dependencies(tid, raw).1
  {
    deps, warnings := [], [];
    var items: seq<Option<int>> := [];
    match raw {
      case NoDeps =>
      case NotAList => warnings := [DependenciesNotList(tid)];
      case DepsList(xs) => items := xs;
    }
    if raw.DepsList? {
      var j := 0;
      while j < |items|
        invariant j <= |items|
        invariant (deps, warnings) == ParseDeps(tid, items[..j])
      {
        assert items[..j + 1][..j] == items[..j];
        if items[j].Some? {
          deps := deps + [items[j].value];
        } else {
          warnings := warnings + [InvalidDependency(tid)];
        }
        j := j + 1;
      }
      assert items[..j] == items;
    }
  }

  /** The id step of `normalize_tasks`: a usable id is kept, a missing or unusable one becomes `idx + 1`. */
  method RecordId(idx: nat, raw: RawId) returns (tid: int, warnings: seq<Warning>)
    ensures tid == TaskId(idx, raw) && warnings == IdWarnings(idx, raw)
  {
    warnings := [];
    match raw {
      case NoIdKey => tid := idx + 1;
      case IdValue(p) =>
        if p.Some? {
          tid := p.value;
        } else {
          tid := idx + 1;
          warnings := warnings + [InvalidId(idx, tid)];
        }
    }
  }

  /** The title step of `normalize_tasks`: the stripped title, or "Untitled Task <id>" when blank. */
  method RecordTitle(raw: string, tid: int) returns (title: string)
    ensures title == Title(raw, tid)
  {
    title := Text.Strip(raw);
    if title == [] {
      title := "Untitled Task " + Text.IntToString(tid);
    }
  }

  /** The body of the `normalize_tasks` loop for the record at index `idx`. */
  method NormalizeRecord(idx: nat, t: RawTask) returns (task: NormalizedTask, warnings: seq<Warning>)
    ensures task == NormalizeTask(idx, t)
    ensures warnings == TaskWarnings(idx, t)
  {
    var tid;
    tid, warnings := RecordId(idx, t.id);
    var title := RecordTitle(t.title, tid);

    var due := ParseDate(t.dueDate);
    var dueWarning := WarnIf(!NotSupplied(t.dueDate) && due.None?, InvalidDueDate(tid));
    var hours := ParseFloat(t.estimatedHours);
    var hoursWarning := WarnIf(!NotSupplied(t.estimatedHours) && hours.None?, InvalidHours(tid));
    var importance := ClampInt(t.importance, ImportanceMin, ImportanceMax);
    var importanceWarning := WarnIf(!NotSupplied(t.importance) && importance.None?, InvalidImportance(tid));
    var fieldWarnings := dueWarning + hoursWarning + importanceWarning;
    assert fieldWarnings == FieldWarnings(tid, t);
    warnings := warnings + fieldWarnings;

    var deps, depWarnings := CollectDependencies(tid, t.dependencies);
    warnings := warnings + depWarnings;
    task := NormalizedTask(tid, title, due, hours, importance, deps);
  }

  /** Taking one more record appends its task and its warnings. */
  lemma UpToNext(raw: seq<RawTask>, n: nat)
    requires n < |raw|
    ensures TasksUpTo(raw, n + 1) == TasksUpTo(raw, n) + [NormalizeTask(n, raw[n])]
    ensures WarningsUpTo(raw, n + 1) == WarningsUpTo(raw, n) + TaskWarnings(n, raw[n])
  {
  }

  /** `normalize_tasks`: one task per record, in record order, with all warnings in order. */
  method NormalizeTasks(raw: seq<RawTask>) returns (tasks: seq<NormalizedTask>, warnings: seq<Warning>)
    ensures |tasks| == |raw|
    ensures forall i :: 0 <= i < |raw| ==> tasks[i] == NormalizeTask(i, raw[i])
    ensures warnings == WarningsUpTo(raw, |raw|)
  {
    tasks, warnings := [], [];
    var idx := 0;
    while idx < |raw|
      invariant idx <= |raw|
      invariant tasks == TasksUpTo(raw, idx)
      invariant warnings == WarningsUpTo(raw, idx)
    {
      var task, taskWarnings := NormalizeRecord(idx, raw[idx]);
      UpToNext(raw, idx);
      tasks := tasks + [task];
      warnings := warnings + taskWarnings;
      idx := idx + 1;
    }
    forall i | 0 <= i < |raw| ensures tasks[i] == NormalizeTask(i, raw[i]) {
      TasksUpToAt(raw, |raw|, i);
    }
  }
}
