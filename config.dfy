/** Loading of the git_tools_rc settings file, paluche/config.py.

    The environment (`HOME`, `XDG_CONFIG_HOME`, the home directory that
    `os.path.expanduser('~')` resolves) is an `Env` value, `os.path.isfile`
    an arbitrary predicate on paths, and reading plus INI parsing of a file a
    function from a path to either the parsed sections or a parse error. */
module Config {
  import opened Wrappers
  import opened Text
  import Logging

  // ---------------------------------------------------------------------
  // Settings tables
  // ---------------------------------------------------------------------

  /** A setting is either a plain string or, for a colour key, a `Color`. */
  datatype RcValue = StringValue(s: string) | ColorValue(color: Logging.Color)

  type Section = map<string, RcValue>

  /** Section name to section, the shape of `DEFAULT_RC`. */
  type Table = map<string, Section>

  const BranchStatus := "git-branch-status"

  /** `DEFAULT_RC`. */
  function BuiltinDefaults(): Table {
    map[BranchStatus := map[
      "branch_owner" := StringValue(""),
      "my-branches-color" := ColorValue(Logging.BLUE),
      "default-branch-color" := ColorValue(Logging.YELLOW),
      "branches-color" := ColorValue(Logging.MAGENTA),
      "corner-high-left" := StringValue("\U{250C}"),
      "corner-high-right" := StringValue("\U{2510}"),
      "corner-low-left" := StringValue("\U{2514}"),
      "corner-low-right" := StringValue("\U{2518}"),
      "cross-high" := StringValue("\U{252C}"),
      "cross-middle" := StringValue("\U{253C}"),
      "cross-low" := StringValue("\U{2534}"),
      "cross-left" := StringValue("\U{251C}"),
      "cross-right" := StringValue("\U{2524}"),
      "line-horizontal" := StringValue("\U{2500}"),
      "line-vertical" := StringValue("\U{2502}"),
      "cursor" := StringValue("*"),
      "rebased" := StringValue(""),
      "not-rebased" := StringValue(""),
      "ahead" := StringValue("ahead"),
      "behind" := StringValue("behind"),
      "up-to-date" := StringValue("up-to-date")
    ]]
  }

  /** `'color' in key`. */
  predicate IsColorKey(key: string) {
    HasSubstring(key, "color")
  }

  /** Every colour key holds a `Color` and every other key a string. */
  predicate WellTyped(t: Table) {
    forall sk, k :: sk in t && k in t[sk] ==> (t[sk][k].ColorValue? <==> IsColorKey(k))
  }

  /** Same sections, and each section has the same keys. */
  predicate SameShape(a: Table, b: Table) {
    && a.Keys == b.Keys
    && forall sk :: sk in a ==> a[sk].Keys == b[sk].Keys
  }

  /** A key with no "ol" in it has no "color" in it. */
  lemma NotColorKey(k: string)
    requires forall i :: 0 <= i < |k| - 1 ==> k[i] != 'o' || k[i + 1] != 'l'
    ensures !IsColorKey(k)
  {
    forall i | 0 <= i <= |k|
      ensures !OccursAt(k, "color", i)
    {
      if i + 5 <= |k| {
        assert k[i..i + 5][1] == k[i + 1] && k[i..i + 5][2] == k[i + 2];
      }
    }
  }

  lemma ColorKey(k: string)
    requires |k| >= 5 && k[|k| - 5..] == "color"
    ensures IsColorKey(k)
  {
    assert OccursAt(k, "color", |k| - 5);
  }

  lemma BoxKeysPlain()
    ensures !IsColorKey("corner-high-left") && !IsColorKey("corner-high-right")
    ensures !IsColorKey("corner-low-left") && !IsColorKey("corner-low-right")
    ensures !IsColorKey("cross-high") && !IsColorKey("cross-middle") && !IsColorKey("cross-low")
    ensures !IsColorKey("cross-left") && !IsColorKey("cross-right")
    ensures !IsColorKey("line-horizontal") && !IsColorKey("line-vertical")
  {
    NotColorKey("corner-high-left");
    NotColorKey("corner-high-right");
    NotColorKey("corner-low-left");
    NotColorKey("corner-low-right");
    NotColorKey("cross-high");
    NotColorKey("cross-middle");
    NotColorKey("cross-low");
    NotColorKey("cross-left");
    NotColorKey("cross-right");
    NotColorKey("line-horizontal");
    NotColorKey("line-vertical");
  }

  lemma TextKeysPlain()
    ensures !IsColorKey("branch_owner") && !IsColorKey("cursor")
    ensures !IsColorKey("rebased") && !IsColorKey("not-rebased")
    ensures !IsColorKey("ahead") && !IsColorKey("behind") && !IsColorKey("up-to-date")
  {
    NotColorKey("branch_owner");
    NotColorKey("cursor");
    NotColorKey("rebased");
    NotColorKey("not-rebased");
    NotColorKey("ahead");
    NotColorKey("behind");
    NotColorKey("up-to-date");
  }

  /** The built-in defaults hold a `Color` under exactly the colour keys. */
  lemma DefaultsWellTyped()
    ensures WellTyped(BuiltinDefaults())
  {
    ColorKey("my-branches-color");
    ColorKey("default-branch-color");
    ColorKey("branches-color");
    BoxKeysPlain();
    TextKeysPlain();
  }

  // ---------------------------------------------------------------------
  // Merging a parsed file over a table
  // ---------------------------------------------------------------------

  /** The `ValueError`s `load_git_tools_rc` raises. */
  datatype RcError =
    | UnexpectedSection(section: string)
    | UnexpectedKey(section: string, key: string)
    | InvalidColor(value: string)

  type Entries = seq<(string, string)>

  /** What `ConfigParser.read_file` gives: the sections in file order (the
      "DEFAULT" group included) with their key/value pairs, or a parse
      `Error`. */
  datatype ParsedRc = ParseError | Parsed(sections: seq<(string, Entries)>)

  /** The table after a merge, and the error that stopped it if any. */
  datatype Merge = Merge(table: Table, error: Option<RcError>)

  /** The value stored for `key = value`: the `Color` named by the value
      for a colour key, `None` when it names none, else the string. */
  function StoredValue(key: string, value: string): (r: Option<RcValue>)
    ensures r.Some? ==> (r.value.ColorValue? <==> IsColorKey(key))
    ensures r.None? <==> IsColorKey(key) && Logging.ColorOfName(value).None?
  {
    if IsColorKey(key) then
      match Logging.ColorOfName(value)
      case None => None
      case Some(c) => Some(ColorValue(c))
    else Some(StringValue(value))
  }

  /** One `key = value` of section `sk`. */
  function EntryStep(t: Table, sk: string, key: string, value: string): (m: Merge)
    requires sk in t
    ensures SameShape(t, m.table)
  {
    if key !in t[sk] then Merge(t, Some(UnexpectedKey(sk, key)))
    else match StoredValue(key, value)
      case None => Merge(t, Some(InvalidColor(value)))
      case Some(v) => Merge(t[sk := t[sk][key := v]], None)
  }

  /** The entries of one section in order, stopping at the first error. */
  function ApplyEntries(t: Table, sk: string, es: Entries): (m: Merge)
    requires sk in t
    ensures SameShape(t, m.table)
    decreases |es|
  {
    if es == [] then Merge(t, None)
    else
      var m := ApplyEntries(t, sk, es[..|es| - 1]);
      if m.error.Some? then m
      else EntryStep(m.table, sk, es[|es| - 1].0, es[|es| - 1].1)
  }

  /** One section: "DEFAULT" is skipped, an unknown name is an error. */
  function SectionStep(t: Table, sk: string, es: Entries): (m: Merge)
    ensures SameShape(t, m.table)
  {
    if sk == "DEFAULT" then Merge(t, None)
    else if sk !in t then Merge(t, Some(UnexpectedSection(sk)))
    else ApplyEntries(t, sk, es)
  }

  /** All sections in order, stopping at the first error. */
  function ApplySections(t: Table, secs: seq<(string, Entries)>): (m: Merge)
    ensures SameShape(t, m.table)
    decreases |secs|
  {
    if secs == [] then Merge(t, None)
    else
      var m := ApplySections(t, secs[..|secs| - 1]);
      if m.error.Some? then m
      else SectionStep(m.table, secs[|secs| - 1].0, secs[|secs| - 1].1)
  }

  /** The whole of `load_git_tools_rc` after the search: no path (or an
      empty one) or a parse error leaves the table as it is. */
  function LoadOutcome(t: Table, path: Option<string>, read: string -> ParsedRc): (m: Merge)
    ensures SameShape(t, m.table)
    ensures path.None? || path.value == "" ==> m == Merge(t, None)
    ensures m.error.None? <==>
      path.None? || path.value == "" || read(path.value).ParseError? || SchemaOk(t, read(path.value).sections)
  {
    if path.None? || path.value == "" then Merge(t, None)
    else match read(path.value)
      case ParseError => Merge(t, None)
      case Parsed(secs) => ApplySectionsOkIff(t, secs); ApplySections(t, secs)
  }

  /** What the caller sees: the table, or the raised error. */
  function ResultOf(m: Merge): Result<Table, RcError> {
    if m.error.Some? then Failure(m.error.value) else Success(m.table)
  }

  // ---------------------------------------------------------------------
  // What a merge does
  // ---------------------------------------------------------------------

  /** The entries of a section are acceptable: known keys, and a colour
      key names a `Color`. */
  predicate EntriesOk(sec: Section, es: Entries) {
    forall j :: 0 <= j < |es| ==> es[j].0 in sec && StoredValue(es[j].0, es[j].1).Some?
  }

  /** The whole file is acceptable against the table's schema. */
  predicate SchemaOk(t: Table, secs: seq<(string, Entries)>) {
    forall i :: 0 <= i < |secs| && secs[i].0 != "DEFAULT" ==>
      secs[i].0 in t && EntriesOk(t[secs[i].0], secs[i].1)
  }

  lemma {:induction false} ApplyEntriesOkIff(t: Table, sk: string, es: Entries)
    requires sk in t
    ensures ApplyEntries(t, sk, es).error.None? <==> EntriesOk(t[sk], es)
    decreases |es|
  {
    if es != [] {
      var init := es[..|es| - 1];
      ApplyEntriesOkIff(t, sk, init);
      assert forall j :: 0 <= j < |init| ==> init[j] == es[j];
    }
  }

  /** A merge succeeds exactly when every section other than "DEFAULT" is
      known and all its keys are known with valid colours. */
  lemma {:induction false} ApplySectionsOkIff(t: Table, secs: seq<(string, Entries)>)
    ensures ApplySections(t, secs).error.None? <==> SchemaOk(t, secs)
    decreases |secs|
  {
    if secs != [] {
      var init := secs[..|secs| - 1];
      ApplySectionsOkIff(t, init);
      assert forall i :: 0 <= i < |init| ==> init[i] == secs[i];
      var m := ApplySections(t, init);
      var last := secs[|secs| - 1];
      if m.error.None? && last.0 != "DEFAULT" && last.0 in t {
        ApplyEntriesOkIff(m.table, last.0, last.1);
        assert m.table[last.0].Keys == t[last.0].Keys;
      }
    }
  }

  /** The value the last `key = …` of section `sk` in `es` gives. */
  function LastInEntries(es: Entries, key: string): Option<string>
    decreases |es|
  {
    if es == [] then None
    else if es[|es| - 1].0 == key then Some(es[|es| - 1].1)
    else LastInEntries(es[..|es| - 1], key)
  }

  /** The value the last `key = …` of a section named `sk` gives in the
      whole file; the "DEFAULT" group never counts. */
  function LastValue(secs: seq<(string, Entries)>, sk: string, key: string): Option<string>
    decreases |secs|
  {
    if secs == [] || sk == "DEFAULT" then None
    else if secs[|secs| - 1].0 == sk && LastInEntries(secs[|secs| - 1].1, key).Some? then
      LastInEntries(secs[|secs| - 1].1, key)
    else LastValue(secs[..|secs| - 1], sk, key)
  }

  lemma {:induction false} ApplyEntriesValueAt(t: Table, sk: string, es: Entries, s: string, k: string)
    requires sk in t && s in t && k in t[s]
    requires ApplyEntries(t, sk, es).error.None?
    ensures Some(ApplyEntries(t, sk, es).table[s][k]) ==
      if s == sk && LastInEntries(es, k).Some? then StoredValue(k, LastInEntries(es, k).value)
      else Some(t[s][k])
    decreases |es|
  {
    if es != [] {
      ApplyEntriesValueAt(t, sk, es[..|es| - 1], s, k);
    }
  }

  lemma {:induction false} ApplySectionsValueAt(t: Table, secs: seq<(string, Entries)>, s: string, k: string)
    requires s in t && k in t[s]
    requires ApplySections(t, secs).error.None?
    ensures Some(ApplySections(t, secs).table[s][k]) ==
      if LastValue(secs, s, k).Some? then StoredValue(k, LastValue(secs, s, k).value)
      else Some(t[s][k])
    decreases |secs|
  {
    if secs != [] {
      var init := secs[..|secs| - 1];
      ApplySectionsValueAt(t, init, s, k);
      var m := ApplySections(t, init);
      var last := secs[|secs| - 1];
      var final := ApplySections(t, secs).table;
      assert m.error.None?;
      assert s in m.table && k in m.table[s];
      if last.0 != "DEFAULT" && last.0 in t {
        assert final == ApplyEntries(m.table, last.0, last.1).table;
        ApplyEntriesValueAt(m.table, last.0, last.1, s, k);
      } else {
        assert final == m.table;
      }
      if s != "DEFAULT" && s == last.0 && LastInEntries(last.1, k).Some? {
        assert LastValue(secs, s, k) == LastInEntries(last.1, k);
      } else {
        assert LastValue(secs, s, k) == LastValue(init, s, k);
      }
    }
  }

  /** After a successful merge every key given in the file holds its last
      given (converted) value and every other key keeps its old value. */
  lemma ApplySectionsValues(t: Table, secs: seq<(string, Entries)>)
    requires ApplySections(t, secs).error.None?
    ensures forall s, k :: s in t && k in t[s] ==>
      Some(ApplySections(t, secs).table[s][k]) ==
        if LastValue(secs, s, k).Some? then StoredValue(k, LastValue(secs, s, k).value)
        else Some(t[s][k])
  {
    forall s, k | s in t && k in t[s]
      ensures Some(ApplySections(t, secs).table[s][k]) ==
        if LastValue(secs, s, k).Some? then StoredValue(k, LastValue(secs, s, k).value)
        else Some(t[s][k])
    {
      ApplySectionsValueAt(t, secs, s, k);
    }
  }

  /** Merging never breaks the typing of a table, not even a merge that
      stops at an error half-way. */
  lemma {:induction false} ApplySectionsWellTyped(t: Table, secs: seq<(string, Entries)>)
    requires WellTyped(t)
    ensures WellTyped(ApplySections(t, secs).table)
    decreases |secs|
  {
    if secs != [] {
      ApplySectionsWellTyped(t, secs[..|secs| - 1]);
      var m := ApplySections(t, secs[..|secs| - 1]);
      var last := secs[|secs| - 1];
      if m.error.None? && last.0 != "DEFAULT" && last.0 in m.table {
        ApplyEntriesWellTyped(m.table, last.0, last.1);
      }
    }
  }

  lemma {:induction false} ApplyEntriesWellTyped(t: Table, sk: string, es: Entries)
    requires sk in t && WellTyped(t)
    ensures WellTyped(ApplyEntries(t, sk, es).table)
    decreases |es|
  {
    if es != [] {
      ApplyEntriesWellTyped(t, sk, es[..|es| - 1]);
    }
  }

  /** An error names a real violation in the file. */
  lemma {:induction false} ApplySectionsErrorWitness(t: Table, secs: seq<(string, Entries)>)
    ensures var e := ApplySections(t, secs).error;
      && (e.Some? && e.value.UnexpectedSection? ==>
            e.value.section != "DEFAULT" && e.value.section !in t
            && exists i :: 0 <= i < |secs| && secs[i].0 == e.value.section)
      && (e.Some? && e.value.UnexpectedKey? ==>
            e.value.section in t && e.value.key !in t[e.value.section]
            && exists i :: 0 <= i < |secs| && secs[i].0 == e.value.section
                 && exists j :: 0 <= j < |secs[i].1| && secs[i].1[j].0 == e.value.key)
      && (e.Some? && e.value.InvalidColor? ==>
            Logging.ColorOfName(e.value.value).None?
            && exists i :: 0 <= i < |secs|
                 && exists j :: 0 <= j < |secs[i].1|
                      && IsColorKey(secs[i].1[j].0) && secs[i].1[j].1 == e.value.value)
    decreases |secs|
  {
    if secs != [] {
      var init := secs[..|secs| - 1];
      ApplySectionsErrorWitness(t, init);
      var m := ApplySections(t, init);
      var last := secs[|secs| - 1];
      if m.error.Some? {
        var e := m.error.value;
        if e.UnexpectedSection? {
          var i :| 0 <= i < |init| && init[i].0 == e.section;
          assert secs[i] == init[i];
        } else if e.UnexpectedKey? {
          var i :| 0 <= i < |init| && init[i].0 == e.section
            && exists j :: 0 <= j < |init[i].1| && init[i].1[j].0 == e.key;
          assert secs[i] == init[i];
        } else {
          var i :| 0 <= i < |init|
            && exists j :: 0 <= j < |init[i].1| && IsColorKey(init[i].1[j].0) && init[i].1[j].1 == e.value;
          assert secs[i] == init[i];
        }
      } else if last.0 != "DEFAULT" && last.0 in m.table {
        ApplyEntriesErrorWitness(m.table, last.0, last.1);
        assert secs[|secs| - 1] == last;
      }
    }
  }

  lemma {:induction false} ApplyEntriesErrorWitness(t: Table, sk: string, es: Entries)
    requires sk in t
    ensures var e := ApplyEntries(t, sk, es).error;
      && (e.Some? ==> !e.value.UnexpectedSection?)
      && (e.Some? && e.value.UnexpectedKey? ==>
            e.value.section == sk && e.value.key !in t[sk]
            && exists j :: 0 <= j < |es| && es[j].0 == e.value.key)
      && (e.Some? && e.value.InvalidColor? ==>
            Logging.ColorOfName(e.value.value).None?
            && exists j :: 0 <= j < |es| && IsColorKey(es[j].0) && es[j].1 == e.value.value)
    decreases |es|
  {
    if es != [] {
      var init := es[..|es| - 1];
      ApplyEntriesErrorWitness(t, sk, init);
      var m := ApplyEntries(t, sk, init);
      if m.error.Some? {
        var e := m.error.value;
        if e.UnexpectedKey? {
          var j :| 0 <= j < |init| && init[j].0 == e.key;
          assert es[j] == init[j];
        } else if e.InvalidColor? {
          var j :| 0 <= j < |init| && IsColorKey(init[j].0) && init[j].1 == e.value;
          assert es[j] == init[j];
        }
      }
    }
  }

  lemma {:induction false} EntriesStopAtError(t: Table, sk: string, es: Entries, j: nat)
    requires sk in t && j <= |es|
    requires ApplyEntries(t, sk, es[..j]).error.Some?
    ensures ApplyEntries(t, sk, es) == ApplyEntries(t, sk, es[..j])
    decreases |es|
  {
    if j < |es| {
      var init := es[..|es| - 1];
      assert init[..j] == es[..j];
      EntriesStopAtError(t, sk, init, j);
    } else {
      assert es[..j] == es;
    }
  }

  lemma {:induction false} SectionsStopAtError(t: Table, secs: seq<(string, Entries)>, i: nat)
    requires i <= |secs|
    requires ApplySections(t, secs[..i]).error.Some?
    ensures ApplySections(t, secs) == ApplySections(t, secs[..i])
    decreases |secs|
  {
    if i < |secs| {
      var init := secs[..|secs| - 1];
      assert init[..i] == secs[..i];
      SectionsStopAtError(t, init, i);
    } else {
      assert secs[..i] == secs;
    }
  }

  /** One more entry: either the error already raised, or one more step. */
  lemma EntriesPrefixStep(t: Table, sk: string, es: Entries, j: nat)
    requires sk in t && j < |es|
    ensures var m := ApplyEntries(t, sk, es[..j]);
      ApplyEntries(t, sk, es[..j + 1]) == if m.error.Some? then m else EntryStep(m.table, sk, es[j].0, es[j].1)
  {
    var pre := es[..j + 1];
    assert pre != [] && |pre| - 1 == j;
    assert pre[..|pre| - 1] == es[..j];
    assert pre[|pre| - 1] == es[j];
  }

  /** One more section: either the error already raised, or one more step. */
  lemma SectionsPrefixStep(t: Table, secs: seq<(string, Entries)>, i: nat)
    requires i < |secs|
    ensures var m := ApplySections(t, secs[..i]);
      ApplySections(t, secs[..i + 1]) == if m.error.Some? then m else SectionStep(m.table, secs[i].0, secs[i].1)
  {
    var pre := secs[..i + 1];
    assert pre != [] && |pre| - 1 == i;
    assert pre[..|pre| - 1] == secs[..i];
    assert pre[|pre| - 1] == secs[i];
  }

  /** The body of the inner loop: check the key against the keys the
      section allowed, check a colour value, then write it. */
  method StoreEntry(ret: Table, sk: string, allowed: set<string>, key: string, value: string)
    returns (m: Merge)
    requires sk in ret && allowed == ret[sk].Keys
    ensures m == EntryStep(ret, sk, key, value)
  {
    if key !in allowed {
      return Merge(ret, Some(UnexpectedKey(sk, key)));
    }
    var v := StringValue(value);
    if IsColorKey(key) {
      var c := Logging.ColorOfName(value);
      if c.None? {
        return Merge(ret, Some(InvalidColor(value)));
      }
      v := ColorValue(c.value);
    }
    return Merge(ret[sk := ret[sk][key := v]], None);
  }

  /** The inner loop of `load_git_tools_rc` over the keys of one section,
      writing each accepted value into the table as it goes. */
  method MergeEntries(t: Table, sk: string, es: Entries) returns (m: Merge)
    requires sk in t
    ensures m == ApplyEntries(t, sk, es)
  {
    var ret := t;
    var allowed := t[sk].Keys;
    var j := 0;
    while j < |es|
      invariant 0 <= j <= |es|
      invariant sk in ret && ret[sk].Keys == allowed
      invariant ApplyEntries(t, sk, es[..j]) == Merge(ret, None)
    {
      EntriesPrefixStep(t, sk, es, j);
      var step := StoreEntry(ret, sk, allowed, es[j].0, es[j].1);
      if step.error.Some? {
        EntriesStopAtError(t, sk, es, j + 1);
        return step;
      }
      ret := step.table;
      j := j + 1;
    }
    assert es[..|es|] == es;
    return Merge(ret, None);
  }

  /** The outer loop of `load_git_tools_rc` over the parsed sections. A
      raised error leaves the writes made before it in place. */
  method MergeSections(t: Table, secs: seq<(string, Entries)>) returns (m: Merge)
    ensures m == ApplySections(t, secs)
  {
    var ret := t;
    var i := 0;
    while i < |secs|
      invariant 0 <= i <= |secs|
      invariant ApplySections(t, secs[..i]) == Merge(ret, None)
    {
      var sk := secs[i].0;
      SectionsPrefixStep(t, secs, i);
      if sk != "DEFAULT" {
        if sk !in ret {
          SectionsStopAtError(t, secs, i + 1);
          return Merge(ret, Some(UnexpectedSection(sk)));
        }
        var inner := MergeEntries(ret, sk, secs[i].1);
        if inner.error.Some? {
          SectionsStopAtError(t, secs, i + 1);
          return inner;
        }
        ret := inner.table;
      }
      i := i + 1;
    }
    assert secs[..|secs|] == secs;
    return Merge(ret, None);
  }

  // ---------------------------------------------------------------------
  // Finding the file
  // ---------------------------------------------------------------------

  /** `HOME`, `XDG_CONFIG_HOME` (either may be unset) and what
      `os.path.expanduser('~')` resolves to. */
  datatype Env = Env(home: Option<string>, xdgConfigHome: Option<string>, expandedHome: string)

  /** `os.environ.get('HOME', os.path.expanduser('~'))`. */
  function Home(env: Env): string {
    env.home.GetOr(env.expandedHome)
  }

  /** One `(path components, dot_file)` search entry. */
  datatype Candidate = Candidate(parts: seq<Option<string>>, dotFile: bool)

  /** `search_paths`: a set, so no search order is promised. */
  function Candidates(env: Env): (r: set<Candidate>)
    ensures |r| == 4
    ensures Candidate([Some(Home(env))], true) in r
    ensures forall c :: c in r ==> 1 <= |c.parts| <= 2
    ensures forall c :: c in r && c.dotFile ==> c.parts == [Some(Home(env))]
  {
    var xdg := Candidate([env.xdgConfigHome], false);
    var config := Candidate([Some(Home(env)), Some(".config")], false);
    var dot := Candidate([Some(Home(env))], true);
    var etc := Candidate([Some("/etc"), Some("git-tools-rc")], false);
    assert etc.parts[1] != config.parts[1];
    assert |{xdg, config, dot, etc}| == 4 by {
      assert {xdg, config, dot, etc} == {xdg} + {config} + {dot} + {etc};
    }
    {xdg, config, dot, etc}
  }

  /** Python truthiness of an optional string. */
  predicate Truthy(p: Option<string>) {
    p.Some? && p.value != ""
  }

  predicate AllTruthy(parts: seq<Option<string>>) {
    forall i | 0 <= i < |parts| :: Truthy(parts[i])
  }

  function RcFileName(dotFile: bool): string {
    (if dotFile then "." else "") + "git_tools_rc"
  }

  function Values(parts: seq<Option<string>>): (r: seq<string>)
    requires AllTruthy(parts)
    ensures |r| == |parts|
    ensures forall i :: 0 <= i < |parts| ==> r[i] == parts[i].value
  {
    if parts == [] then [] else [parts[0].value] + Values(parts[1..])
  }

  /** `os.path.join(*args, name)`, joining with "/". */
  function PathOf(parts: seq<Option<string>>, dotFile: bool): string
    requires AllTruthy(parts)
  {
    Join(Values(parts) + [RcFileName(dotFile)], '/')
  }

  /** `_has_git_tools_rc(*parts, dot_file=dotFile)`. */
  function HasGitToolsRc(parts: seq<Option<string>>, dotFile: bool, isFile: string -> bool): (r: Option<string>)
    ensures r.Some? ==> AllTruthy(parts) && r.value == PathOf(parts, dotFile) && isFile(r.value)
    ensures r.None? <==> !AllTruthy(parts) || !isFile(PathOf(parts, dotFile))
  {
    if !AllTruthy(parts) then None
    else
      var path := PathOf(parts, dotFile);
      if isFile(path) then Some(path) else None
  }

  /** The path is the components joined with "/", then "/" and the file
      name; nothing in the components is checked or changed. */
  lemma PathOfComponents(parts: seq<Option<string>>, dotFile: bool)
    requires AllTruthy(parts) && |parts| > 0
    ensures PathOf(parts, dotFile) == Join(Values(parts), '/') + "/" + RcFileName(dotFile)
  {
    JoinSnoc(Values(parts), RcFileName(dotFile), '/');
  }

  /** The XDG candidate is `$XDG_CONFIG_HOME/git_tools_rc`. */
  lemma XdgCandidatePath(xdg: string)
    requires xdg != ""
    ensures PathOf([Some(xdg)], false) == xdg + "/git_tools_rc"
  {
    PathOfComponents([Some(xdg)], false);
    assert Values([Some(xdg)]) == [xdg];
  }

  /** The configuration-directory candidate is `$HOME/.config/git_tools_rc`. */
  lemma ConfigDirCandidatePath(home: string)
    requires home != ""
    ensures PathOf([Some(home), Some(".config")], false) == home + "/.config/git_tools_rc"
  {
    PathOfComponents([Some(home), Some(".config")], false);
    var v := Values([Some(home), Some(".config")]);
    assert v == [home, ".config"];
    assert v[1..] == [".config"];
    assert Join(v, '/') == home + "/" + ".config";
  }

  lemma JoinThree(a: string, b: string, c: string, sep: char)
    ensures Join([a, b, c], sep) == a + [sep] + b + [sep] + c
  {
    assert [a, b, c][1..] == [b, c];
    assert [b, c][1..] == [c];
    assert Join([b, c], sep) == b + [sep] + c;
  }

  /** The system-wide candidate is `/etc/git-tools-rc/git_tools_rc`. */
  lemma EtcCandidatePath()
    ensures PathOf([Some("/etc"), Some("git-tools-rc")], false) == "/etc/git-tools-rc/git_tools_rc"
  {
    var v := Values([Some("/etc"), Some("git-tools-rc")]);
    assert v == ["/etc", "git-tools-rc"];
    assert RcFileName(false) == "git_tools_rc";
    assert v + [RcFileName(false)] == ["/etc", "git-tools-rc", "git_tools_rc"];
    JoinThree("/etc", "git-tools-rc", "git_tools_rc", '/');
  }

  /** The dot-file candidate is `$HOME/.git_tools_rc`. */
  lemma DotFileCandidatePath(home: string)
    requires home != ""
    ensures PathOf([Some(home)], true) == home + "/.git_tools_rc"
  {
    var v := Values([Some(home)]);
    assert |v| == 1 && v[0] == home;
    assert v == [home];
    assert RcFileName(true) == ".git_tools_rc";
    var dot := v + [RcFileName(true)];
    assert dot == [home, ".git_tools_rc"];
    assert dot[1..] == [".git_tools_rc"];
    assert Join(dot, '/') == home + ['/'] + ".git_tools_rc";
    assert ['/'] + ".git_tools_rc" == "/.git_tools_rc";
  }

  /** A path the search may return. */
  predicate Found(env: Env, isFile: string -> bool, path: Option<string>) {
    if path.None? then
      forall c :: c in Candidates(env) ==> HasGitToolsRc(c.parts, c.dotFile, isFile).None?
    else
      exists c :: c in Candidates(env) && HasGitToolsRc(c.parts, c.dotFile, isFile) == path
  }


  /** `_find_git_tools_rc`: tries the candidates in whatever order the set
      yields them and returns the first that is a file. */
  method FindGitToolsRc(env: Env, isFile: string -> bool) returns (path: Option<string>)
    ensures path.None? <==> forall c :: c in Candidates(env) ==> HasGitToolsRc(c.parts, c.dotFile, isFile).None?
    ensures path.Some? ==> isFile(path.value)
    ensures path.Some? ==> exists c :: c in Candidates(env) && HasGitToolsRc(c.parts, c.dotFile, isFile) == path
  {
    var remaining := Candidates(env);
    while remaining != {}
      invariant remaining <= Candidates(env)
      invariant forall c :: c in Candidates(env) - remaining ==> HasGitToolsRc(c.parts, c.dotFile, isFile).None?
      decreases remaining
    {
      var c :| c in remaining;
      var p := HasGitToolsRc(c.parts, c.dotFile, isFile);
      if p.Some? && p.value != "" {
        return p;
      }
      remaining := remaining - {c};
    }
    return None;
  }

  // ---------------------------------------------------------------------
  // DEFAULT_RC and load_git_tools_rc
  // ---------------------------------------------------------------------

  /** The module-level `DEFAULT_RC`. `load_git_tools_rc` starts from
      `DEFAULT_RC.copy()`, a shallow copy: the sections of the copy are the
      very dictionaries of `DEFAULT_RC`, so the writes of the merge change
      `DEFAULT_RC` itself. */
  class DefaultRc {
    var table: Table

    constructor ()
      ensures table == BuiltinDefaults()
    {
      table := BuiltinDefaults();
    }

    /** `load_git_tools_rc` once the file has been looked for. The returned
        table and the module defaults are the same sections, and a schema
        error leaves the writes made before it in the defaults. */
    method LoadFrom(path: Option<string>, read: string -> ParsedRc) returns (r: Result<Table, RcError>)
      modifies this
      ensures table == LoadOutcome(old(table), path, read).table
      ensures r == ResultOf(LoadOutcome(old(table), path, read))
    {
      if path.None? || path.value == "" {
        return Success(table);
      }
      var parsed := read(path.value);
      if parsed.ParseError? {
        return Success(table);
      }
      var m := MergeSections(table, parsed.sections);
      table := m.table;
      if m.error.Some? {
        return Failure(m.error.value);
      }
      return Success(table);
    }

    /** `load_git_tools_rc`: search, then load. */
    method LoadGitToolsRc(env: Env, isFile: string -> bool, read: string -> ParsedRc)
      returns (r: Result<Table, RcError>)
      modifies this
      ensures exists p ::
                (Found(env, isFile, p)
                 && table == LoadOutcome(old(table), p, read).table
                 && r == ResultOf(LoadOutcome(old(table), p, read)))
    {
      var path := FindGitToolsRc(env, isFile);
      assert Found(env, isFile, path);
      r := LoadFrom(path, read);
    }

    /** The load with a deep copy of the defaults, as the copy was evidently
        meant: same result, and `DEFAULT_RC` is left as it was. */
    method LoadDetached(path: Option<string>, read: string -> ParsedRc) returns (r: Result<Table, RcError>)
      ensures r == ResultOf(LoadOutcome(table, path, read))
    {
      if path.None? || path.value == "" {
        return Success(table);
      }
      var parsed := read(path.value);
      if parsed.ParseError? {
        return Success(table);
      }
      var m := MergeSections(table, parsed.sections);
      if m.error.Some? {
        return Failure(m.error.value);
      }
      return Success(m.table);
    }
  }

  /** With no file found, or a file that does not parse, the load gives
      the defaults unchanged; a successful load keeps every section's key
      set and holds a `Color` under exactly the colour keys. */
  lemma LoadOutcomeShape(t: Table, path: Option<string>, read: string -> ParsedRc)
    requires WellTyped(t)
    ensures path.None? ==> LoadOutcome(t, path, read) == Merge(t, None)
    ensures path.Some? && read(path.value).ParseError? ==> LoadOutcome(t, path, read) == Merge(t, None)
    ensures SameShape(t, LoadOutcome(t, path, read).table)
    ensures WellTyped(LoadOutcome(t, path, read).table)
  {
    if path.Some? && path.value != "" && read(path.value).Parsed? {
      ApplySectionsWellTyped(t, read(path.value).sections);
    }
  }

  /** A section whose first key is accepted and whose second is unknown:
      the merge fails on the second, yet its table holds the first. */
  lemma {:induction false} PartialWriteBeforeError(t: Table, sk: string, good: string, value: string, bad: string, other: string)
    requires sk != "DEFAULT" && sk in t && good in t[sk] && bad !in t[sk] && !IsColorKey(good)
    ensures var m := ApplySections(t, [(sk, [(good, value), (bad, other)])]);
      && m.error == Some(UnexpectedKey(sk, bad))
      && m.table == t[sk := t[sk][good := StringValue(value)]]
  {
    var es := [(good, value), (bad, other)];
    var secs := [(sk, es)];
    assert es[..1] == [(good, value)];
    assert es[..1][..0] == [];
    assert ApplyEntries(t, sk, es[..1][..0]) == Merge(t, None);
    assert StoredValue(good, value) == Some(StringValue(value));
    var first := ApplyEntries(t, sk, es[..1]);
    assert first == Merge(t[sk := t[sk][good := StringValue(value)]], None);
    assert ApplyEntries(t, sk, es) == Merge(first.table, Some(UnexpectedKey(sk, bad)));
    assert secs[..0] == [];
  }

  /** The shallow copy at work: a file that sets `cursor` and then names an
      unknown key makes the load fail, yet the table the defaults share now
      holds the new `cursor`. */
  lemma FailedLoadStillRewritesDefaults()
    ensures var secs := [(BranchStatus, [("cursor", ">"), ("cursor-x", "@")])];
      var m := LoadOutcome(BuiltinDefaults(), Some("/etc/git-tools-rc/git_tools_rc"), (p: string) => Parsed(secs));
      && m.error == Some(UnexpectedKey(BranchStatus, "cursor-x"))
      && m.table[BranchStatus]["cursor"] == StringValue(">")
      && BuiltinDefaults()[BranchStatus]["cursor"] == StringValue("*")
  {
    NotColorKey("cursor");
    var t := BuiltinDefaults();
    assert "cursor" in t[BranchStatus] && "cursor-x" !in t[BranchStatus];
    PartialWriteBeforeError(t, BranchStatus, "cursor", ">", "cursor-x", "@");
  }

  /** The same file run through the loader object: the load raises, and
      the defaults object now holds the new `cursor`. */
  method LoadFromKeepsFailedWrites() returns (r: Result<Table, RcError>, cursor: RcValue)
    ensures r == Failure(UnexpectedKey(BranchStatus, "cursor-x"))
    ensures cursor == StringValue(">")
  {
    var secs := [(BranchStatus, [("cursor", ">"), ("cursor-x", "@")])];
    var d := new DefaultRc();
    r := d.LoadFrom(Some("/etc/git-tools-rc/git_tools_rc"), (p: string) => Parsed(secs));
    FailedLoadStillRewritesDefaults();
    cursor := d.table[BranchStatus]["cursor"];
  }

  // ---------------------------------------------------------------------
  // The colour check as written
  // ---------------------------------------------------------------------

  /** Some attributes of the `Color` class that are not members: those of
      `int` and of the class itself. */
  const IntEnumClassAttributes: set<string> :=
    {"bit_length", "to_bytes", "from_bytes", "conjugate", "real", "imag",
     "numerator", "denominator", "mro", "__doc__", "__members__"}

  /** `hasattr(Color, value)`, as far as this model knows the attributes:
      the member names, and at least the attributes above. */
  predicate HasAttrColor(value: string) {
    Logging.ColorOfName(value).Some? || value in IntEnumClassAttributes
  }

  /** The written check accepts every colour name but also names that are
      no colour; the membership check the model uses rejects them. */
  lemma HasAttrLetsNonColorsThrough(value: string)
    ensures Logging.ColorOfName(value).Some? ==> HasAttrColor(value)
    ensures HasAttrColor("bit_length") && Logging.ColorOfName("bit_length").None?
    ensures StoredValue("my-branches-color", "bit_length").None?
  {
    ColorKey("my-branches-color");
  }
}
