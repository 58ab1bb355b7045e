/**
 * utils/roadmap_loader.py: flattening the nested curriculum roadmap
 * (level -> topic key -> entry) into one record per topic. Reading the JSON
 * file is not part of the model; the parsed roadmap dict is the input.
 */
module RoadmapLoader {
  import opened Wrappers
  import opened PyStr
  import opened JsonValue

  /** One row of the topics table: the dict `flatten_roadmap` appends for a topic entry. */
  datatype TopicRow = TopicRow(topic: string, roadmapLevel: string, description: Value, examples: Value)

  /** One inner item of the roadmap, tagged with the level it sits under. */
  datatype Entry = Entry(level: string, key: string, value: Value)

  /** `isinstance(value, dict) and "Description" in value`. */
  predicate IsTopicEntry(value: Value) {
    value.Obj? && HasKey(value.fields, "Description")
  }

  /** `key.replace("1.", "").replace("2.", "").strip()`. */
  function CleanKey(key: string): string {
    Strip(RemoveAll(RemoveAll(key, "1."), "2."))
  }

  /** The record built for a topic entry. */
  function EntryRow(e: Entry): TopicRow
    requires IsTopicEntry(e.value)
  {
    var desc := Get(e.value.fields, "Description");
    TopicRow(CleanKey(e.key), e.level, desc.value, GetOr(e.value.fields, "Example", Arr([])))
  }

  /** Every level's value is a dict, so `items.items()` can be called on it. */
  predicate LevelsAreDicts(rm: seq<(string, Value)>) {
    forall i :: 0 <= i < |rm| ==> rm[i].1.Obj?
  }

  /** The inner items of one level, in the level's key order. */
  function LevelEntries(level: string, fields: seq<(string, Value)>): (es: seq<Entry>)
    ensures |es| == |fields|
    ensures forall j :: 0 <= j < |fields| ==> es[j] == Entry(level, fields[j].0, fields[j].1)
  {
    seq(|fields|, j requires 0 <= j < |fields| => Entry(level, fields[j].0, fields[j].1))
  }

  /** All inner items of the roadmap: outer level order first, then each level's key order. */
  function Entries(rm: seq<(string, Value)>): seq<Entry>
    requires LevelsAreDicts(rm)
  {
    if rm == [] then []
    else Entries(rm[..|rm| - 1]) + LevelEntries(rm[|rm| - 1].0, rm[|rm| - 1].1.fields)
  }

  /** The records for a run of items: one per topic entry, in order, none for anything else. */
  function Rows(es: seq<Entry>): seq<TopicRow> {
    if es == [] then []
    else
      var e := es[|es| - 1];
      Rows(es[..|es| - 1]) + (if IsTopicEntry(e.value) then [EntryRow(e)] else [])
  }

  /** What `flatten_roadmap` returns for a parsed roadmap (all levels dicts). */
  function AllRows(rm: seq<(string, Value)>): seq<TopicRow>
    requires LevelsAreDicts(rm)
  {
    Rows(Entries(rm))
  }

  /** `flatten_roadmap`: the table, or the AttributeError raised on a level that is not a dict. */
  function Flatten(rm: seq<(string, Value)>): Result<seq<TopicRow>> {
    if LevelsAreDicts(rm) then Ok(AllRows(rm)) else Err("AttributeError")
  }

  lemma {:induction false} RowsAppend(a: seq<Entry>, b: seq<Entry>)
    ensures Rows(a + b) == Rows(a) + Rows(b)
    decreases |b|
  {
    if b == [] {
      assert a + b == a;
    } else {
      var b' := b[..|b| - 1];
      assert (a + b)[..|a + b| - 1] == a + b';
      assert (a + b)[|a + b| - 1] == b[|b| - 1];
      RowsAppend(a, b');
    }
  }

  lemma {:induction false} EntriesAppend(a: seq<(string, Value)>, b: seq<(string, Value)>)
    requires LevelsAreDicts(a) && LevelsAreDicts(b)
    ensures LevelsAreDicts(a + b)
    ensures Entries(a + b) == Entries(a) + Entries(b)
    decreases |b|
  {
    assert LevelsAreDicts(a + b) by {
      forall i | 0 <= i < |a + b| ensures (a + b)[i].1.Obj? {
        if i >= |a| { assert (a + b)[i] == b[i - |a|]; }
      }
    }
    if b == [] {
      assert a + b == a;
    } else {
      var b' := b[..|b| - 1];
      assert (a + b)[..|a + b| - 1] == a + b';
      assert (a + b)[|a + b| - 1] == b[|b| - 1];
      EntriesAppend(a, b');
    }
  }

  /** Output order follows the outer level order: the rows of earlier levels come first. */
  lemma FlattenConcat(a: seq<(string, Value)>, b: seq<(string, Value)>)
    requires LevelsAreDicts(a) && LevelsAreDicts(b)
    ensures Flatten(a + b) == Ok(AllRows(a) + AllRows(b))
  {
    EntriesAppend(a, b);
    RowsAppend(Entries(a), Entries(b));
  }

  /** Each item contributes at most one record. */
  lemma {:induction false} RowsLength(es: seq<Entry>)
    ensures |Rows(es)| <= |es|
  {
    if es != [] {
      RowsLength(es[..|es| - 1]);
    }
  }

  /** Every record comes from a topic entry, in item order. */
  lemma {:induction false} RowsSound(es: seq<Entry>, k: nat)
    requires k < |Rows(es)|
    ensures exists n :: 0 <= n < |es| && IsTopicEntry(es[n].value) && Rows(es)[k] == EntryRow(es[n])
  {
    var init := es[..|es| - 1];
    var e := es[|es| - 1];
    if k < |Rows(init)| {
      RowsSound(init, k);
      var n :| 0 <= n < |init| && IsTopicEntry(init[n].value) && Rows(init)[k] == EntryRow(init[n]);
      assert es[n] == init[n];
    } else {
      assert IsTopicEntry(e.value) && Rows(es)[k] == EntryRow(e);
    }
  }

  /** Every topic entry yields its record. */
  lemma {:induction false} RowsComplete(es: seq<Entry>, n: nat)
    requires n < |es| && IsTopicEntry(es[n].value)
    ensures EntryRow(es[n]) in Rows(es)
  {
    var init := es[..|es| - 1];
    if n < |init| {
      assert es[n] == init[n];
      RowsComplete(init, n);
    }
  }

  /** The number of inner items of a roadmap. */
  function EntryCount(rm: seq<(string, Value)>): nat
    requires LevelsAreDicts(rm)
  {
    if rm == [] then 0 else EntryCount(rm[..|rm| - 1]) + |rm[|rm| - 1].1.fields|
  }

  lemma {:induction false} EntriesLength(rm: seq<(string, Value)>)
    requires LevelsAreDicts(rm)
    ensures |Entries(rm)| == EntryCount(rm)
  {
    if rm != [] {
      EntriesLength(rm[..|rm| - 1]);
    }
  }

  /** The item at `fields[j]` of level `i` is one of the roadmap's items. */
  lemma {:induction false} EntriesComplete(rm: seq<(string, Value)>, i: nat, j: nat)
    requires LevelsAreDicts(rm) && i < |rm| && j < |rm[i].1.fields|
    ensures Entry(rm[i].0, rm[i].1.fields[j].0, rm[i].1.fields[j].1) in Entries(rm)
  {
    var init := rm[..|rm| - 1];
    var e := Entry(rm[i].0, rm[i].1.fields[j].0, rm[i].1.fields[j].1);
    if i < |init| {
      assert rm[i] == init[i];
      EntriesComplete(init, i, j);
    } else {
      assert e == LevelEntries(rm[i].0, rm[i].1.fields)[j];
    }
  }

  /** Every roadmap item sits under some level at some key. */
  lemma {:induction false} EntriesSound(rm: seq<(string, Value)>, e: Entry)
    requires LevelsAreDicts(rm) && e in Entries(rm)
    ensures exists i, j :: 0 <= i < |rm| && 0 <= j < |rm[i].1.fields| && e == Entry(rm[i].0, rm[i].1.fields[j].0, rm[i].1.fields[j].1)
  {
    var init := rm[..|rm| - 1];
    var last := rm[|rm| - 1];
    if e in Entries(init) {
      EntriesSound(init, e);
      var i, j :| 0 <= i < |init| && 0 <= j < |init[i].1.fields| && e == Entry(init[i].0, init[i].1.fields[j].0, init[i].1.fields[j].1);
      assert init[i] == rm[i];
    } else {
      var les := LevelEntries(last.0, last.1.fields);
      var j :| 0 <= j < |les| && les[j] == e;
      assert e == Entry(rm[|rm| - 1].0, rm[|rm| - 1].1.fields[j].0, rm[|rm| - 1].1.fields[j].1);
    }
  }

  /** Exactly the topic entries produce records, and no more records than inner items exist. */
  lemma FlattenLength(rm: seq<(string, Value)>)
    requires LevelsAreDicts(rm)
    ensures |AllRows(rm)| <= EntryCount(rm)
  {
    RowsLength(Entries(rm));
    EntriesLength(rm);
  }

  /** `row` is the record for the topic entry `value` stored under `key` in level `level`. */
  predicate RowOf(row: TopicRow, level: string, key: string, value: Value) {
    && IsTopicEntry(value)
    && row.topic == CleanKey(key)
    && row.roadmapLevel == level
    && Get(value.fields, "Description") == Some(row.description)
    && row.examples == GetOr(value.fields, "Example", Arr([]))
  }

  /**
   * Each record is built from some level `i` and key `j` whose value is a dict holding
   * "Description": its topic is the cleaned key, its level the outer key, its
   * description `value["Description"]` and its examples `value.get("Example", [])`.
   */
  lemma FlattenSound(rm: seq<(string, Value)>, k: nat)
    requires LevelsAreDicts(rm) && k < |AllRows(rm)|
    ensures exists i, j :: 0 <= i < |rm| && 0 <= j < |rm[i].1.fields| && RowOf(AllRows(rm)[k], rm[i].0, rm[i].1.fields[j].0, rm[i].1.fields[j].1)
  {
    RowsSound(Entries(rm), k);
    var es := Entries(rm);
    var n :| 0 <= n < |es| && IsTopicEntry(es[n].value) && Rows(es)[k] == EntryRow(es[n]);
    EntriesSound(rm, es[n]);
  }

  /** Each dict entry holding "Description", at any level, appears as a record. */
  lemma FlattenComplete(rm: seq<(string, Value)>, i: nat, j: nat)
    requires LevelsAreDicts(rm) && i < |rm| && j < |rm[i].1.fields|
    requires IsTopicEntry(rm[i].1.fields[j].1)
    ensures EntryRow(Entry(rm[i].0, rm[i].1.fields[j].0, rm[i].1.fields[j].1)) in AllRows(rm)
  {
    var e := Entry(rm[i].0, rm[i].1.fields[j].0, rm[i].1.fields[j].1);
    EntriesComplete(rm, i, j);
    var es := Entries(rm);
    var n :| 0 <= n < |es| && es[n] == e;
    RowsComplete(es, n);
  }

  /**
   * The roadmap's numbered keys: "1." or "2." in front of a title loses the number and the
   * surrounding whitespace, so "1. Fundamentals" (t = " Fundamentals") becomes "Fundamentals".
   */
  lemma CleanKeyNumbered(t: string)
    requires !Contains(t, "1.") && !Contains(t, "2.")
    ensures CleanKey(t) == Strip(t)
    ensures CleanKey("1." + t) == Strip(t)
    ensures CleanKey("2." + t) == Strip(t)
  {
    RemoveAllAbsent(t, "1.");
    RemoveAllAbsent(t, "2.");
    var one := "1." + t;
    assert one[..2] == "1." && one[2..] == t;
    var two := "2." + t;
    assert two[..2] == "2." && two[2..] == t;
    var dot := "." + t;
    assert two[1..] == dot;
    if |dot| >= 2 {
      assert dot[0] == '.';
      assert dot[..2][0] != "1."[0];
      assert dot[1..] == t;
    }
    assert RemoveAll(two, "1.") == two;
  }

  /** A title without a full stop holds neither "1." nor "2.", so `CleanKeyNumbered` applies to it. */
  lemma NoDotNoNumber(t: string)
    requires '.' !in t
    ensures !Contains(t, "1.") && !Contains(t, "2.")
  {
    if Contains(t, "1.") {
      var i :| 0 <= i <= |t| && OccursAt(t, "1.", i);
      OccursAtMember(t, "1.", i, 1);
      assert false;
    }
    if Contains(t, "2.") {
      var i :| 0 <= i <= |t| && OccursAt(t, "2.", i);
      OccursAtMember(t, "2.", i, 1);
      assert false;
    }
  }

  /** One step of the inner loop: the next item adds its record, if it is a topic entry. */
  lemma RowsStep(done: seq<Entry>, level: string, fields: seq<(string, Value)>, j: nat)
    requires j < |fields|
    ensures var e := Entry(level, fields[j].0, fields[j].1);
      Rows(done + LevelEntries(level, fields[..j + 1]))
      == Rows(done + LevelEntries(level, fields[..j])) + (if IsTopicEntry(e.value) then [EntryRow(e)] else [])
  {
    var before := done + LevelEntries(level, fields[..j]);
    var after := done + LevelEntries(level, fields[..j + 1]);
    assert after[..|after| - 1] == before;
    assert after[|after| - 1] == Entry(level, fields[j].0, fields[j].1);
  }

  /** One step of the outer loop: a dict level adds the records of all its items. */
  lemma AllRowsStep(rm: seq<(string, Value)>, i: nat)
    requires i < |rm| && LevelsAreDicts(rm[..i]) && rm[i].1.Obj?
    ensures LevelsAreDicts(rm[..i + 1])
    ensures AllRows(rm[..i + 1]) == Rows(Entries(rm[..i]) + LevelEntries(rm[i].0, rm[i].1.fields[..|rm[i].1.fields|]))
  {
    assert rm[i].1.fields[..|rm[i].1.fields|] == rm[i].1.fields;
    assert rm[..i + 1][..i] == rm[..i];
    assert LevelsAreDicts(rm[..i + 1]);
  }

  /**
   * `flatten_roadmap` as a loop: the levels in order and, inside each dict level,
   * its items in order, appending a record for each topic entry.
   */
  method FlattenRoadmap(rm: seq<(string, Value)>) returns (r: Result<seq<TopicRow>>)
    requires WellFormedFields(rm)
    ensures r == Flatten(rm)
  {
    var topics: seq<TopicRow> := [];
    var i := 0;
    while i < |rm|
      invariant 0 <= i <= |rm|
      invariant LevelsAreDicts(rm[..i])
      invariant topics == AllRows(rm[..i])
    {
      var (levelName, items) := rm[i];
      if !items.Obj? {
        assert !LevelsAreDicts(rm);
        return Err("AttributeError");
      }
      var fields := items.fields;
      ghost var done := Entries(rm[..i]);
      var j := 0;
      assert done + LevelEntries(levelName, fields[..j]) == done;
      while j < |fields|
        invariant 0 <= j <= |fields|
        invariant topics == Rows(done + LevelEntries(levelName, fields[..j]))
      {
        var (key, value) := fields[j];
        RowsStep(done, levelName, fields, j);
        if value.Obj? && HasKey(value.fields, "Description") {
          topics := topics + [EntryRow(Entry(levelName, key, value))];
        }
        j := j + 1;
      }
      AllRowsStep(rm, i);
      i := i + 1;
    }
    assert rm[..i] == rm;
    return Ok(topics);
  }
}
