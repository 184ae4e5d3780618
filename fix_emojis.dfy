/**
 * The emoji clean-up script (scripts/setup/fix_emojis.py): every key of a
 * replacement table is replaced by its bracketed token, one key after the
 * other in the table's order, with Python's `str.replace`; `main` does this
 * for the files of a fixed list that exist and skips the others.
 *
 * The keys are the strings the script's source holds: each emoji as it
 * reads after a wrong decoding, a run of two to six characters that starts
 * with U+00E2 or U+011F. Reading and writing files are inputs here: the
 * content read (or the failure to read it) and whether the write fails.
 */
module FixEmojis {
  import opened Wrappers
  import opened Text

  /** A replacement table, in the order its entries are applied. */
  type Table = seq<(string, string)>

  // ---------------------------------------------------------------------------
  // str.replace and the replacement loop
  // ---------------------------------------------------------------------------

  /** Python's `s.replace(pattern, replacement)`: every occurrence of `pattern`, scanning left
      to right without overlaps, becomes `replacement`; an empty `pattern` puts `replacement`
      before every character and at the end. */
  function Replace(s: string, pattern: string, replacement: string): string
    decreases |s|
  {
    if pattern == [] then
      (if s == [] then replacement else replacement + [s[0]] + Replace(s[1..], pattern, replacement))
    else if |s| < |pattern| then s
    else if s[..|pattern|] == pattern then replacement + Replace(s[|pattern|..], pattern, replacement)
    else [s[0]] + Replace(s[1..], pattern, replacement)
  }

  /** An occurrence in the tail of a string is an occurrence in the string. */
  lemma NotContainsTail(s: string, sub: string)
    requires s != [] && !Contains(s, sub)
    ensures !Contains(s[1..], sub)
  {
    forall i: nat | i <= |s| - 1
      ensures !OccursAt(s[1..], sub, i)
    {
      assert !OccursAt(s, sub, i + 1);
      if i + |sub| <= |s| - 1 {
        assert s[1..][i..i + |sub|] == s[i + 1..i + 1 + |sub|];
      }
    }
  }

  /** A string without `pattern` is left as it is. */
  lemma {:induction false} ReplaceAbsent(s: string, pattern: string, replacement: string)
    requires pattern != [] && !Contains(s, pattern)
    ensures Replace(s, pattern, replacement) == s
    decreases |s|
  {
    if |s| >= |pattern| {
      assert !OccursAt(s, pattern, 0);
      NotContainsTail(s, pattern);
      ReplaceAbsent(s[1..], pattern, replacement);
    }
  }

  /** A key on its own becomes its token. */
  lemma ReplaceWhole(pattern: string, replacement: string)
    requires pattern != []
    ensures Replace(pattern, pattern, replacement) == replacement
  {
    assert pattern[..|pattern|] == pattern;
    assert pattern[|pattern|..] == [];
  }

  /** The replacement loop as a function: the entries applied in order, each
      to the result of the previous ones. */
  function ApplyAll(table: Table, s: string): string
    decreases |table|
  {
    if table == [] then s else ApplyAll(table[1..], Replace(s, table[0].0, table[0].1))
  }

  /** Applying a table is applying its first `k` entries and then the rest. */
  lemma {:induction false} ApplyAllSplit(table: Table, k: nat, s: string)
    requires k <= |table|
    ensures ApplyAll(table, s) == ApplyAll(table[k..], ApplyAll(table[..k], s))
    decreases k
  {
    if k > 0 {
      var r := Replace(s, table[0].0, table[0].1);
      assert table[..k][1..] == table[1..][..k - 1];
      assert ApplyAll(table[..k], s) == ApplyAll(table[1..][..k - 1], r);
      ApplyAllSplit(table[1..], k - 1, r);
      assert table[1..][k - 1..] == table[k..];
    }
  }

  /** Content that holds none of the (non-empty) keys comes out unchanged. */
  lemma {:induction false} ApplyAllUnchanged(table: Table, s: string)
    requires forall i :: 0 <= i < |table| ==> table[i].0 != [] && !Contains(s, table[i].0)
    ensures ApplyAll(table, s) == s
    decreases |table|
  {
    if table != [] {
      ReplaceAbsent(s, table[0].0, table[0].1);
      assert forall i :: 0 <= i < |table| - 1 ==> table[1..][i] == table[i + 1];
      ApplyAllUnchanged(table[1..], s);
    }
  }

  /** The replacement loop of remove_emojis_from_file. */
  method ReplaceEach(table: Table, content: string) returns (result: string)
    ensures result == ApplyAll(table, content)
  {
    result := content;
    for i := 0 to |table|
      invariant ApplyAll(table[i..], result) == ApplyAll(table, content)
    {
      assert table[i..][1..] == table[i + 1..];
      result := Replace(result, table[i].0, table[i].1);
    }
    assert table[|table|..] == [];
  }

  // ---------------------------------------------------------------------------
  // The shape of the keys, and when a key becomes its own token
  // ---------------------------------------------------------------------------

  /** The first character of every key. */
  predicate IsLead(c: char) {
    c == '\U{E2}' || c == '\U{11F}'
  }

  /** A key starts with a lead character and has none after it. */
  predicate KeyShaped(k: string) {
    |k| >= 2 && IsLead(k[0]) && forall p :: 1 <= p < |k| ==> !IsLead(k[p])
  }

  /** Every key is shaped so, and no token holds a lead character. */
  predicate TableShaped(table: Table) {
    && (forall i :: 0 <= i < |table| ==> KeyShaped(table[i].0))
    && (forall i, c :: 0 <= i < |table| && c in table[i].1 ==> !IsLead(c))
  }

  /** `a` is longer than `b` or differs from it in one of its first four
      characters, so `a` is not a prefix of `b`. */
  predicate Differ(a: string, b: string) {
    || |a| > |b|
    || (|a| > 0 && a[0] != b[0]) || (|a| > 1 && a[1] != b[1])
    || (|a| > 2 && a[2] != b[2]) || (|a| > 3 && a[3] != b[3])
  }

  /** Keys that differ so do not occur in each other: a lead character can
      only be matched at the start of a key. */
  lemma DifferNotContained(a: string, b: string)
    requires KeyShaped(a) && KeyShaped(b) && Differ(a, b)
    ensures !Contains(b, a)
  {
    forall p: nat | p <= |b|
      ensures !OccursAt(b, a, p)
    {
      if p + |a| <= |b| {
        var w := b[p..p + |a|];
        if p == 0 {
          if a[0] != b[0] { assert w[0] == b[0]; }
          else if a[1] != b[1] { assert w[1] == b[1]; }
          else if |a| > 2 && a[2] != b[2] { assert w[2] == b[2]; }
          else if |a| > 3 && a[3] != b[3] { assert w[3] == b[3]; }
        } else {
          assert w[0] == b[p];
        }
      }
    }
  }

  /** In a shaped table, a key that no earlier key is a prefix of comes out
      as its own token. */
  lemma KeyBecomesToken(table: Table, j: nat)
    requires j < |table| && TableShaped(table)
    requires forall i :: 0 <= i < j ==> Differ(table[i].0, table[j].0)
    ensures ApplyAll(table, table[j].0) == table[j].1
  {
    var key := table[j].0;
    var token := table[j].1;
    ApplyAllSplit(table, j, key);
    forall i | 0 <= i < j
      ensures table[..j][i].0 != [] && !Contains(key, table[..j][i].0)
    {
      DifferNotContained(table[i].0, key);
    }
    ApplyAllUnchanged(table[..j], key);
    ReplaceWhole(key, token);
    assert table[j..][1..] == table[j + 1..];
    var rest := table[j + 1..];
    forall i | 0 <= i < |rest|
      ensures rest[i].0 != [] && !Contains(token, rest[i].0)
    {
      assert rest[i] == table[j + 1 + i];
      NotContainsChar(token, rest[i].0, 0);
    }
    ApplyAllUnchanged(rest, token);
  }

  // ---------------------------------------------------------------------------
  // The table of the script, and the corrected one
  // ---------------------------------------------------------------------------

  /** The table in the order the script's dictionary lists it. */
  const AsWritten: Table := [
    ("\U{E2}\U{153}\U{2026}", "[OK]"),
    ("\U{E2}\U{152}", "[ERROR]"),
    ("\U{E2}\U{161}\U{A0}\U{EF}\U{B8}", "[ADVERTENCIA]"),
    ("\U{11F}\U{178}\U{201D}", "[BUSCAR]"),
    ("\U{11F}\U{178}\U{201C}\U{160}", "[INFORME]"),
    ("\U{11F}\U{178}\U{2019}\U{BE}", "[GUARDAR]"),
    ("\U{11F}\U{178}\U{A4}\U{2013}", "[ROBINO]"),
    ("\U{11F}\U{178}\U{2019}\U{B0}", "[DINERO]"),
    ("\U{11F}\U{178}\U{201C}\U{2039}", "[PEDIDO]"),
    ("\U{11F}\U{178}\U{161}\U{20AC}", "[INICIAR]"),
    ("\U{11F}\U{178}\U{AF}", "[OBJETIVO]"),
    ("\U{11F}\U{178}\U{2030}", "[EXITO]"),
    ("\U{11F}\U{178}\U{2019}\U{A1}", "[IDEA]"),
    ("\U{11F}\U{178}\U{2014}\U{201C}\U{EF}\U{B8}", "[FECHA]"),
    ("\U{11F}\U{178}\U{2018}\U{A4}", "[CLIENTE]"),
    ("\U{E2}\U{AD}", "[ESPECIAL]"),
    ("\U{11F}\U{178}\U{A5}\U{A9}", "[CARNE]"),
    ("\U{11F}\U{178}\U{178}", "[PESCADO]"),
    ("\U{11F}\U{178}\U{A5}\U{2014}", "[VEGETARIANO]"),
    ("\U{11F}\U{178}\U{B0}", "[POSTRE]"),
    ("\U{11F}\U{178}\U{B7}", "[VINO]"),
    ("\U{11F}\U{178}\U{BD}\U{EF}\U{B8}", "[PLATO]"),
    ("\U{11F}\U{178}\U{201D}\U{2014}", "[LINK]"),
    ("\U{11F}\U{178}\U{A7}\U{AA}", "[TEST]"),
    ("\U{11F}\U{178}\U{201C}", "[NOTA]"),
    ("\U{11F}\U{178}\U{201C}\U{2C6}", "[ANALISIS]")
  ]

  /** The same entries with each key ahead of the shorter key that is its
      prefix: [LINK] before [BUSCAR], [ANALISIS] before [NOTA]. */
  const Corrected: Table := [
    ("\U{E2}\U{153}\U{2026}", "[OK]"),
    ("\U{E2}\U{152}", "[ERROR]"),
    ("\U{E2}\U{161}\U{A0}\U{EF}\U{B8}", "[ADVERTENCIA]"),
    ("\U{11F}\U{178}\U{201D}\U{2014}", "[LINK]"),
    ("\U{11F}\U{178}\U{201D}", "[BUSCAR]"),
    ("\U{11F}\U{178}\U{201C}\U{160}", "[INFORME]"),
    ("\U{11F}\U{178}\U{2019}\U{BE}", "[GUARDAR]"),
    ("\U{11F}\U{178}\U{A4}\U{2013}", "[ROBINO]"),
    ("\U{11F}\U{178}\U{2019}\U{B0}", "[DINERO]"),
    ("\U{11F}\U{178}\U{201C}\U{2039}", "[PEDIDO]"),
    ("\U{11F}\U{178}\U{161}\U{20AC}", "[INICIAR]"),
    ("\U{11F}\U{178}\U{AF}", "[OBJETIVO]"),
    ("\U{11F}\U{178}\U{2030}", "[EXITO]"),
    ("\U{11F}\U{178}\U{2019}\U{A1}", "[IDEA]"),
    ("\U{11F}\U{178}\U{2014}\U{201C}\U{EF}\U{B8}", "[FECHA]"),
    ("\U{11F}\U{178}\U{2018}\U{A4}", "[CLIENTE]"),
    ("\U{E2}\U{AD}", "[ESPECIAL]"),
    ("\U{11F}\U{178}\U{A5}\U{A9}", "[CARNE]"),
    ("\U{11F}\U{178}\U{178}", "[PESCADO]"),
    ("\U{11F}\U{178}\U{A5}\U{2014}", "[VEGETARIANO]"),
    ("\U{11F}\U{178}\U{B0}", "[POSTRE]"),
    ("\U{11F}\U{178}\U{B7}", "[VINO]"),
    ("\U{11F}\U{178}\U{BD}\U{EF}\U{B8}", "[PLATO]"),
    ("\U{11F}\U{178}\U{A7}\U{AA}", "[TEST]"),
    ("\U{11F}\U{178}\U{201C}\U{2C6}", "[ANALISIS]"),
    ("\U{11F}\U{178}\U{201C}", "[NOTA]")
  ]

  /** The corrected table holds the script's entries: [LINK] moved ahead
      of [BUSCAR] and [ANALISIS] ahead of [NOTA]. */
  lemma CorrectedIsReordering()
    ensures Corrected == AsWritten[..3] + [AsWritten[22]] + AsWritten[3..22] + [AsWritten[23], AsWritten[25], AsWritten[24]]
  {
    var r := AsWritten[..3] + [AsWritten[22]] + AsWritten[3..22] + [AsWritten[23], AsWritten[25], AsWritten[24]];
    assert |r| == |Corrected|;
    forall i | 0 <= i < |r|
      ensures r[i] == Corrected[i]
    {
      if 3 < i < 23 {
        assert r[i] == AsWritten[i - 1];
      }
    }
  }

  /** The entries `lo` to `hi` have shaped keys. */
  predicate KeysShapedIn(table: Table, lo: nat, hi: nat)
    requires lo <= hi <= |table|
  {
    forall i :: lo <= i < hi ==> KeyShaped(table[i].0)
  }

  /** The entries `lo` to `hi` have tokens without a lead character. */
  predicate TokensClearIn(table: Table, lo: nat, hi: nat)
    requires lo <= hi <= |table|
  {
    forall i, c :: lo <= i < hi && c in table[i].1 ==> !IsLead(c)
  }

  lemma CorrectedKeysLow()
    ensures KeysShapedIn(Corrected, 0, 13)
  {
  }

  lemma CorrectedKeysHigh()
    ensures KeysShapedIn(Corrected, 13, 26)
  {
  }

  lemma CorrectedTokens0To7()
    ensures TokensClearIn(Corrected, 0, 7)
  {
  }

  lemma CorrectedTokens7To13()
    ensures TokensClearIn(Corrected, 7, 13)
  {
  }

  lemma CorrectedTokens13To20()
    ensures TokensClearIn(Corrected, 13, 20)
  {
  }

  lemma CorrectedTokens20To26()
    ensures TokensClearIn(Corrected, 20, 26)
  {
  }

  /** Every key of the corrected table starts with a lead character that
      occurs nowhere else in a key or a token. */
  lemma CorrectedShaped()
    ensures TableShaped(Corrected)
  {
    CorrectedKeysLow();
    CorrectedKeysHigh();
    CorrectedTokens0To7();
    CorrectedTokens7To13();
    CorrectedTokens13To20();
    CorrectedTokens20To26();
  }

  /** No key of the corrected table is a prefix of a later one. */
  lemma CorrectedOrderedLow()
    ensures forall i, j :: 0 <= i < j < 13 ==> Differ(Corrected[i].0, Corrected[j].0)
  {
  }

  lemma CorrectedOrderedMiddle()
    ensures forall i, j :: 0 <= i < j && 13 <= j < 20 ==> Differ(Corrected[i].0, Corrected[j].0)
  {
  }

  lemma CorrectedOrderedHigh()
    ensures forall i, j :: 0 <= i < j && 20 <= j < 26 ==> Differ(Corrected[i].0, Corrected[j].0)
  {
  }

  /** With the corrected table every key comes out as its own token. */
  lemma EveryKeyBecomesItsToken()
    ensures forall j :: 0 <= j < |Corrected| ==> ApplyAll(Corrected, Corrected[j].0) == Corrected[j].1
  {
    CorrectedShaped();
    CorrectedOrderedLow();
    CorrectedOrderedMiddle();
    CorrectedOrderedHigh();
    forall j | 0 <= j < |Corrected|
      ensures ApplyAll(Corrected, Corrected[j].0) == Corrected[j].1
    {
      KeyBecomesToken(Corrected, j);
    }
  }

  /** When no key before entry `k` occurs in `s`, entry `k` rewrites it to
      a text without lead characters, and every later key starts with a
      lead character, the whole table gives what entry `k` gives. */
  lemma OnlyEntryApplies(table: Table, k: nat, s: string)
    requires k < |table|
    requires forall i :: 0 <= i < k ==> table[i].0 != [] && !Contains(s, table[i].0)
    requires forall i :: k < i < |table| ==> |table[i].0| > 0 && IsLead(table[i].0[0])
    requires '\U{E2}' !in Replace(s, table[k].0, table[k].1) && '\U{11F}' !in Replace(s, table[k].0, table[k].1)
    ensures ApplyAll(table, s) == Replace(s, table[k].0, table[k].1)
  {
    var out := Replace(s, table[k].0, table[k].1);
    ApplyAllSplit(table, k, s);
    var before := table[..k];
    forall i | 0 <= i < |before|
      ensures before[i].0 != [] && !Contains(s, before[i].0)
    {
      assert before[i] == table[i];
    }
    ApplyAllUnchanged(before, s);
    assert table[k..][1..] == table[k + 1..];
    var rest := table[k + 1..];
    forall i | 0 <= i < |rest|
      ensures rest[i].0 != [] && !Contains(out, rest[i].0)
    {
      assert rest[i] == table[k + 1 + i];
      NotContainsChar(out, rest[i].0, 0);
    }
    ApplyAllUnchanged(rest, out);
  }

  /** Every key of the script's table starts with a lead character. */
  lemma AsWrittenLeads()
    ensures forall i :: 0 <= i < |AsWritten| ==> |AsWritten[i].0| > 0 && IsLead(AsWritten[i].0[0])
  {
  }

  lemma AsWrittenKeysLow()
    ensures KeysShapedIn(AsWritten, 0, 13)
  {
  }

  lemma AsWrittenKeysHigh()
    ensures KeysShapedIn(AsWritten, 13, 26)
  {
  }

  /** The [BUSCAR] key is the first three characters of the [LINK] key. */
  lemma BuscarEatsLink()
    ensures Replace(AsWritten[22].0, AsWritten[3].0, AsWritten[3].1) == "[BUSCAR]\U{2014}"
  {
    var key := AsWritten[22].0;
    assert key[..3] == AsWritten[3].0;
    assert key[3..] == "\U{2014}";
    ReplaceAbsent("\U{2014}", AsWritten[3].0, AsWritten[3].1);
  }

  /** The [NOTA] key is the first three characters of the [ANALISIS] key. */
  lemma NotaEatsAnalisis()
    ensures Replace(AsWritten[25].0, AsWritten[24].0, AsWritten[24].1) == "[NOTA]\U{2C6}"
  {
    var key := AsWritten[25].0;
    assert key[..3] == AsWritten[24].0;
    assert key[3..] == "\U{2C6}";
    ReplaceAbsent("\U{2C6}", AsWritten[24].0, AsWritten[24].1);
  }

  /** With the script's order, the [LINK] key loses its first three
      characters to [BUSCAR] and is left as "[BUSCAR]" and a dash. */
  lemma AsWrittenLosesLink()
    ensures ApplyAll(AsWritten, AsWritten[22].0) == "[BUSCAR]\U{2014}"
  {
    var key := AsWritten[22].0;
    forall i | 0 <= i < 3
      ensures AsWritten[i].0 != [] && !Contains(key, AsWritten[i].0)
    {
      NotContainsChar(key, AsWritten[i].0, 0);
    }
    AsWrittenLeads();
    BuscarEatsLink();
    OnlyEntryApplies(AsWritten, 3, key);
  }

  /** With the script's order, the [ANALISIS] key is left as "[NOTA]" and
      its last character. */
  lemma AsWrittenLosesAnalisis()
    ensures ApplyAll(AsWritten, AsWritten[25].0) == "[NOTA]\U{2C6}"
  {
    var key := AsWritten[25].0;
    AsWrittenKeysLow();
    AsWrittenKeysHigh();
    AnalisisDiffersFromEarlier();
    forall i | 0 <= i < 24
      ensures AsWritten[i].0 != [] && !Contains(key, AsWritten[i].0)
    {
      DifferNotContained(AsWritten[i].0, key);
    }
    AsWrittenLeads();
    NotaEatsAnalisis();
    OnlyEntryApplies(AsWritten, 24, key);
  }

  /** No key before [NOTA] is a prefix of the [ANALISIS] key. */
  lemma AnalisisDiffersFromEarlier()
    ensures forall i :: 0 <= i < 24 ==> Differ(AsWritten[i].0, AsWritten[25].0)
  {
  }

  // ---------------------------------------------------------------------------
  // Files
  // ---------------------------------------------------------------------------

  /** remove_emojis_from_file with the replacement dictionary `table`:
      `content` is what reading the file gave (`None` when it raised); the
      result is True exactly when both the read and the write succeed, and
      the text written is the content with every key replaced. */
  method RemoveEmojisFromFile(table: Table, content: Option<string>, writeFails: bool) returns (ok: bool, written: Option<string>)
    ensures ok <==> content.Some? && !writeFails
    ensures written.Some? <==> ok
    ensures ok ==> written.value == ApplyAll(table, content.value)
  {
    if content.None? {
      return false, None;
    }
    var fixedContent := ReplaceEach(table, content.value);
    if writeFails {
      return false, None;
    }
    return true, Some(fixedContent);
  }

  /** The files `main` tries, in order. */
  const FilesToFix: seq<string> := ["mozo_virtual_agent.py", "multi_agent_system.py", "test_multi_agent.py"]

  /** What `main` reports for each path. */
  datatype FileEvent = Processed(path: string, ok: bool) | NotFound(path: string)

  /** One path of `main`: the file system is a map from existing paths to
      their contents; a path that exists is processed (and its content
      replaced unless its write fails), any other is reported missing. */
  function Step(table: Table, files: map<string, string>, p: string, writeFails: set<string>): (r: (map<string, string>, FileEvent))
    ensures r.0.Keys == files.Keys
    ensures forall q :: q in files && q != p ==> r.0[q] == files[q]
    ensures r.1.path == p && (r.1.NotFound? <==> p !in files)
    ensures p in files && p !in writeFails ==> r.0[p] == ApplyAll(table, files[p]) && r.1 == Processed(p, true)
    ensures p in writeFails ==> r.0 == files
  {
    if p !in files then (files, NotFound(p))
    else if p in writeFails then (files, Processed(p, false))
    else (files[p := ApplyAll(table, files[p])], Processed(p, true))
  }

  /** `main` over a list of paths, one step per path in order. */
  function FixAll(table: Table, files: map<string, string>, paths: seq<string>, writeFails: set<string>): (map<string, string>, seq<FileEvent>)
    decreases |paths|
  {
    if paths == [] then (files, [])
    else
      var step := Step(table, files, paths[0], writeFails);
      var rest := FixAll(table, step.0, paths[1..], writeFails);
      (rest.0, [step.1] + rest.1)
  }

  /** No file is created or removed, and files not in the list are
      untouched. */
  lemma {:induction false} FixAllTouchesOnlyListed(table: Table, files: map<string, string>, paths: seq<string>, writeFails: set<string>)
    ensures FixAll(table, files, paths, writeFails).0.Keys == files.Keys
    ensures forall p :: p in files && p !in paths ==> FixAll(table, files, paths, writeFails).0[p] == files[p]
    decreases |paths|
  {
    if paths != [] {
      var step := Step(table, files, paths[0], writeFails);
      FixAllTouchesOnlyListed(table, step.0, paths[1..], writeFails);
      forall p | p in files && p !in paths
        ensures FixAll(table, files, paths, writeFails).0[p] == files[p]
      {
        assert p != paths[0] && p !in paths[1..];
      }
    }
  }

  /** Only existing files are processed: one event per path, in order, and
      a path is reported missing exactly when it does not exist. */
  lemma {:induction false} OnlyExistingFilesProcessed(table: Table, files: map<string, string>, paths: seq<string>, writeFails: set<string>)
    ensures |FixAll(table, files, paths, writeFails).1| == |paths|
    ensures forall i :: 0 <= i < |paths| ==>
      FixAll(table, files, paths, writeFails).1[i].path == paths[i]
      && (FixAll(table, files, paths, writeFails).1[i].NotFound? <==> paths[i] !in files)
    decreases |paths|
  {
    if paths != [] {
      var step := Step(table, files, paths[0], writeFails);
      OnlyExistingFilesProcessed(table, step.0, paths[1..], writeFails);
      var events := FixAll(table, files, paths, writeFails).1;
      var rest := FixAll(table, step.0, paths[1..], writeFails).1;
      assert events == [step.1] + rest;
      forall i | 1 <= i < |paths|
        ensures events[i].path == paths[i] && (events[i].NotFound? <==> paths[i] !in files)
      {
        assert events[i] == rest[i - 1] && paths[1..][i - 1] == paths[i];
      }
    }
  }

  /** main over the paths with the dictionary `table`: process the paths in
      order, skipping those that do not exist. */
  method FixFiles(table: Table, files: map<string, string>, paths: seq<string>, writeFails: set<string>)
    returns (files': map<string, string>, events: seq<FileEvent>)
    ensures (files', events) == FixAll(table, files, paths, writeFails)
  {
    files' := files;
    events := [];
    assert paths[0..] == paths;
    for i := 0 to |paths|
      invariant FixAll(table, files', paths[i..], writeFails).0 == FixAll(table, files, paths, writeFails).0
      invariant events + FixAll(table, files', paths[i..], writeFails).1 == FixAll(table, files, paths, writeFails).1
    {
      assert paths[i..][1..] == paths[i + 1..];
      var p := paths[i];
      ghost var step := Step(table, files', p, writeFails);
      ghost var before := events;
      ghost var filesBefore := files';
      if p in files' {
        var ok, written := RemoveEmojisFromFile(table, Some(files'[p]), p in writeFails);
        if ok {
          files' := files'[p := written.value];
        }
        events := events + [Processed(p, ok)];
      } else {
        events := events + [NotFound(p)];
      }
      assert files' == step.0 && events == before + [step.1];
      ghost var rest := FixAll(table, files', paths[i + 1..], writeFails);
      assert FixAll(table, filesBefore, paths[i..], writeFails) == (rest.0, [step.1] + rest.1);
      assert before + ([step.1] + rest.1) == events + rest.1;
    }
    assert paths[|paths|..] == [];
    assert FixAll(table, files', [], writeFails) == (files', []);
    assert events + [] == events;
    ghost var all := FixAll(table, files, paths, writeFails);
    assert all.0 == files' && all.1 == events;
  }

  /** main as written: the script's files, fixed with its own dictionary. */
  method FixScriptFiles(files: map<string, string>, writeFails: set<string>)
    returns (files': map<string, string>, events: seq<FileEvent>)
    ensures (files', events) == FixAll(AsWritten, files, FilesToFix, writeFails)
  {
    files', events := FixFiles(AsWritten, files, FilesToFix, writeFails);
  }

  /** When only the first listed path exists, `main` leaves exactly that
      file, holding the table applied to its content. */
  lemma {:induction false} OnlyFirstFileFixed(table: Table, p: string, c: string, paths: seq<string>)
    requires paths != [] && paths[0] == p && p !in paths[1..]
    ensures FixAll(table, map[p := c], paths, {}).0 == map[p := ApplyAll(table, c)]
  {
    var files := map[p := c];
    var step := Step(table, files, p, {});
    assert step.0 == map[p := ApplyAll(table, c)];
    FixAllTouchesOnlyListed(table, step.0, paths[1..], {});
  }

  /** As written, `main` turns a first script file that holds just the
      [LINK] key into "[BUSCAR]" followed by a dash. */
  lemma ScriptManglesLinkFile()
    ensures var p := FilesToFix[0];
      FixAll(AsWritten, map[p := AsWritten[22].0], FilesToFix, {}).0 == map[p := "[BUSCAR]\U{2014}"]
  {
    FilesToFixDistinct();
    AsWrittenLosesLink();
    OnlyFirstFileFixed(AsWritten, FilesToFix[0], AsWritten[22].0, FilesToFix);
  }

  lemma FilesToFixDistinct()
    ensures FilesToFix != [] && FilesToFix[0] !in FilesToFix[1..]
  {
  }

  /** main with the dictionary reordered so that every key becomes its own
      token (`EveryKeyBecomesItsToken`). */
  method FixScriptFilesCorrected(files: map<string, string>, writeFails: set<string>)
    returns (files': map<string, string>, events: seq<FileEvent>)
    ensures (files', events) == FixAll(Corrected, files, FilesToFix, writeFails)
  {
    files', events := FixFiles(Corrected, files, FilesToFix, writeFails);
  }
}
