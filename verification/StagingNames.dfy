/** The names under which the files of a drop share are staged: one flat, safe segment per
    file, with a number appended while the name is taken. */
module StagingNames {
  import opened Ascii
  import opened Collections
  import opened Decimal

  function LowerChar(c: char): char {
    if 'A' <= c <= 'Z' then (c as int + 32) as char else c
  }

  function Lower(s: string): string {
    seq(|s|, i requires 0 <= i < |s| => LowerChar(s[i]))
  }

  /** Lowering turns each capital into the small letter at its place and leaves every other
      character. */
  lemma LoweredLetters(c: char)
    ensures c in CAPITALS ==> c as int - 65 < 26 && LowerChar(c) == SMALLS[c as int - 65]
    ensures c !in CAPITALS ==> LowerChar(c) == c
  {
    Capitals(c);
    Smalls(LowerChar(c));
  }

  /** The safe characters are the letters, the digits, and four more. */
  lemma SafeCharacters(c: char)
    ensures Safe(c) <==> c in CAPITALS || c in SMALLS || c in NUMERALS || c in {'.', '_', ' ', '-'}
  {
    Capitals(c);
    Smalls(c);
    Numerals(c);
  }

  predicate Safe(c: char) {
    'a' <= c <= 'z' || 'A' <= c <= 'Z' || '0' <= c <= '9' || c == '.' || c == '_' || c == ' ' || c == '-'
  }

  function Replaced(s: string): string {
    seq(|s|, i requires 0 <= i < |s| => if Safe(s[i]) then s[i] else '_')
  }

  // Runs of blanks become one; no other white space is left by now.
  function Collapsed(s: string): string {
    if |s| < 2 then s
    else if s[0] == ' ' && s[1] == ' ' then Collapsed(s[1..])
    else [s[0]] + Collapsed(s[1..])
  }

  function Trimmed(s: string): string {
    if s != "" && s[0] == ' ' then Trimmed(s[1..])
    else if s != "" && s[|s| - 1] == ' ' then Trimmed(s[..|s| - 1])
    else s
  }

  function Flat(filename: string): (flat: string)
    ensures flat != ""
  {
    var clean := Trimmed(Collapsed(Replaced(if filename == "" then "file" else filename)));
    if clean == "" then "file" else clean
  }

  // The k-th name tried: the plain one, then -2, -3, ...
  function Candidate(flat: string, k: nat): string {
    if k <= 1 then flat else flat + "-" + Digits(k)
  }

  // ─── Flat names ───────────────────────────────────────────────────────────

  predicate AllSafe(s: string) {
    forall i :: 0 <= i < |s| ==> Safe(s[i])
  }

  lemma {:induction false} CollapsedSafe(s: string)
    requires AllSafe(s)
    ensures AllSafe(Collapsed(s))
  {
    if |s| >= 2 {
      CollapsedSafe(s[1..]);
    }
  }

  lemma {:induction false} TrimmedSafe(s: string)
    requires AllSafe(s)
    ensures AllSafe(Trimmed(s))
    decreases |s|
  {
    if s != "" && s[0] == ' ' {
      TrimmedSafe(s[1..]);
    } else if s != "" && s[|s| - 1] == ' ' {
      TrimmedSafe(s[..|s| - 1]);
    }
  }

  /** Whatever the file was called, its staged name is a single safe path segment. */
  lemma CandidateSafe(filename: string, k: nat)
    ensures AllSafe(Candidate(Flat(filename), k)) && Candidate(Flat(filename), k) != ""
  {
    var named := if filename == "" then "file" else filename;
    CollapsedSafe(Replaced(named));
    TrimmedSafe(Collapsed(Replaced(named)));
  }

  // ─── What a flat name keeps of the file's ─────────────────────────────────

  // The words of a text: its longest stretches without a blank, in order.
  function Words(s: string): seq<string> {
    if s == "" then []
    else if s[0] == ' ' then Words(s[1..])
    else
      var n := FirstBlank(s);
      [s[..n]] + Words(s[n..])
  }

  function FirstBlank(s: string): (n: nat)
    ensures n <= |s| && (forall i :: 0 <= i < n ==> s[i] != ' ') && (n < |s| ==> s[n] == ' ')
    ensures s != "" && s[0] != ' ' ==> n > 0
  {
    if s == "" || s[0] == ' ' then 0 else 1 + FirstBlank(s[1..])
  }

  // A text with single blanks inside and none at its ends.
  ghost predicate Tidy(s: string) {
    && (s != "" ==> s[0] != ' ' && s[|s| - 1] != ' ')
    && (forall i :: 0 < i < |s| ==> !(s[i - 1] == ' ' && s[i] == ' '))
  }

  ghost predicate SingleBlanks(s: string) {
    forall i :: 0 < i < |s| ==> !(s[i - 1] == ' ' && s[i] == ' ')
  }

  lemma {:induction false} CollapsedSingle(s: string)
    ensures SingleBlanks(Collapsed(s)) && (s != "" ==> Collapsed(s) != "" && Collapsed(s)[0] == s[0])
    ensures Words(Collapsed(s)) == Words(s)
  {
    if |s| >= 2 {
      CollapsedSingle(s[1..]);
      if !(s[0] == ' ' && s[1] == ' ') { WordsAfter(s, [s[0]] + Collapsed(s[1..])); }
    }
  }

  // The first word is cut alike from texts with the same first letter and the same rest.
  lemma WordsAfter(s: string, t: string)
    requires s != "" && t != "" && s[0] == t[0] && Words(s[1..]) == Words(t[1..])
    requires (s[1..] == "" <==> t[1..] == "") && (s[1..] != "" ==> s[1] == t[1])
    ensures Words(s) == Words(t)
  {
    if s[0] != ' ' {
      WordsGrow(s);
      WordsGrow(t);
    }
  }

  lemma FirstWord(s: string)
    requires s != "" && s[0] != ' '
    ensures Words(s) == [s[..FirstBlank(s)]] + Words(s[FirstBlank(s)..])
  {
  }

  lemma FirstBlankShifts(s: string)
    requires s != "" && s[0] != ' '
    ensures FirstBlank(s) == 1 + FirstBlank(s[1..])
    ensures s[..FirstBlank(s)] == [s[0]] + s[1..][..FirstBlank(s[1..])] && s[FirstBlank(s)..] == s[1..][FirstBlank(s[1..])..]
  {
  }

  // A letter before a text lengthens its first word, or is a word of its own.
  lemma WordsGrow(s: string)
    requires s != "" && s[0] != ' '
    ensures s[1..] != "" && s[1] != ' ' ==>
      var w := Words(s[1..]); w != [] && Words(s) == [[s[0]] + w[0]] + w[1..]
    ensures s[1..] == "" || s[1] == ' ' ==> Words(s) == [[s[0]]] + Words(s[1..])
  {
    hide Words, FirstBlank;
    FirstWord(s);
    FirstBlankShifts(s);
    if s[1..] != "" && s[1] != ' ' {
      FirstWord(s[1..]);
    } else {
      assert FirstBlank(s[1..]) == 0 && s[..1] == [s[0]];
    }
  }

  lemma BlankFirst(s: string)
    requires s != "" && s[0] == ' '
    ensures Words(s) == Words(s[1..])
  {
  }

  lemma SameFirstBlank(s: string, t: string)
    requires |t| < |s| && s[..|t|] == t && s[|t|] == ' '
    ensures FirstBlank(t) == FirstBlank(s)
  {
    hide FirstBlank;
    var m, n := FirstBlank(t), FirstBlank(s);
    assert forall i :: 0 <= i < |t| ==> t[i] == s[i];
    assert !(m < n) && !(n < m);
  }

  lemma {:induction false} TrailingBlank(s: string)
    requires s != "" && s[|s| - 1] == ' '
    ensures Words(s[..|s| - 1]) == Words(s)
    decreases |s|
  {
    hide Words, FirstBlank;
    var t := s[..|s| - 1];
    if |s| == 1 {
      BlankFirst(s);
      assert s[1..] == t;
    } else if s[0] == ' ' {
      TrailingBlank(s[1..]);
      BlankFirst(s);
      BlankFirst(t);
      assert t[1..] == s[1..][..|s[1..]| - 1];
    } else {
      var n := FirstBlank(s);
      TrailingBlank(s[n..]);
      FirstWord(s);
      FirstWord(t);
      SameFirstBlank(s, t);
      assert t[..n] == s[..n] && t[n..] == s[n..][..|s[n..]| - 1];
    }
  }

  lemma {:induction false} TrimmedTidy(s: string)
    requires SingleBlanks(s)
    ensures Tidy(Trimmed(s)) && Words(Trimmed(s)) == Words(s)
    decreases |s|
  {
    if s != "" && s[0] == ' ' {
      TrimmedTidy(s[1..]);
    } else if s != "" && s[|s| - 1] == ' ' {
      TrailingBlank(s);
      TrimmedTidy(s[..|s| - 1]);
    }
  }

  lemma {:induction false} TidyIsWords(s: string)
    requires Tidy(s)
    ensures s == Join(Words(s), ' ') && (s != "" ==> Words(s) != [])
    decreases |s|
  {
    hide Words, FirstBlank;
    if s == "" {
      NoWords();
    } else {
      var n := FirstBlank(s);
      FirstWord(s);
      if n == |s| {
        NoWords();
        assert s[..n] == s && s[n..] == "";
      } else {
        var rest := s[n + 1..];
        assert s[n..][1..] == rest;
        BlankFirst(s[n..]);
        TidyIsWords(rest);
        assert ([s[..n]] + Words(rest))[1..] == Words(rest);
        assert s == s[..n] + ([' '] + rest);
      }
    }
  }

  /** A file is staged under its own name with every unsafe character replaced by an underscore
      and its words set off by single blanks, or as "file" if no word is left. */
  lemma FlatExact(filename: string)
    ensures var words := Words(Replaced(if filename == "" then "file" else filename));
      Flat(filename) == if words == [] then "file" else Join(words, ' ')
    ensures forall i :: 0 <= i < |filename| ==>
      Replaced(filename)[i] == if Safe(filename[i]) then filename[i] else '_'
  {
    hide Words, Collapsed, Trimmed;
    var r := Replaced(if filename == "" then "file" else filename);
    CollapsedSingle(r);
    TrimmedTidy(Collapsed(r));
    TidyIsWords(Trimmed(Collapsed(r)));
    NoWords();
  }

  lemma NoWords()
    ensures Words("") == []
  {
  }

  /** A safe and tidy name is kept as it is; so a staged name would be staged as itself. */
  lemma FlatFixed(filename: string)
    ensures filename != "" && AllSafe(filename) && Tidy(filename) ==> Flat(filename) == filename
    ensures Flat(Flat(filename)) == Flat(filename)
  {
    hide Words, Collapsed, Trimmed, Tidy;
    FixedIfTidy(filename);
    FixedIfTidy(Flat(filename));
    CandidateSafe(filename, 1);
    FlatTidy(filename);
  }

  lemma FixedIfTidy(filename: string)
    ensures filename != "" && AllSafe(filename) && Tidy(filename) ==> Flat(filename) == filename
  {
    hide Words, Collapsed, Trimmed, Tidy;
    if filename != "" && AllSafe(filename) && Tidy(filename) {
      assert Replaced(filename) == filename;
      FlatExact(filename);
      TidyIsWords(filename);
    }
  }

  lemma FlatTidy(filename: string)
    ensures Tidy(Flat(filename))
  {
    hide Words, Collapsed, Trimmed;
    var r := Replaced(if filename == "" then "file" else filename);
    CollapsedSingle(r);
    TrimmedTidy(Collapsed(r));
  }

  // ─── Enough candidates ────────────────────────────────────────────────────

  lemma LowerConcat(a: string, b: string)
    ensures Lower(a + b) == Lower(a) + Lower(b)
  {
  }

  /** Different numbers give names that differ ignoring case. */
  lemma CandidatesDiffer(flat: string, j: nat, k: nat)
    requires 1 <= j < k
    ensures Lower(Candidate(flat, j)) != Lower(Candidate(flat, k))
  {
    var text := Digits(k);
    assert Lower(text) == text;
    LowerConcat(flat + "-", text);
    LowerConcat(flat, "-");
    if j > 1 {
      var other := Digits(j);
      assert Lower(other) == other;
      LowerConcat(flat + "-", other);
      DigitsParse(j);
      DigitsParse(k);
      assert Lower(Candidate(flat, j))[|flat| + 1..] == other;
      assert Lower(Candidate(flat, k))[|flat| + 1..] == text;
    } else {
      assert |Lower(Candidate(flat, k))| == |flat| + 1 + |text|;
    }
  }

  // The first n candidates, ignoring case.
  function Tried(flat: string, n: nat): set<string> {
    if n == 0 then {} else Tried(flat, n - 1) + {Lower(Candidate(flat, n))}
  }

  lemma {:induction false} TriedAll(flat: string, n: nat)
    ensures |Tried(flat, n)| == n
    ensures forall x :: x in Tried(flat, n) ==> exists k :: 1 <= k <= n && x == Lower(Candidate(flat, k))
  {
    if n > 0 {
      TriedAll(flat, n - 1);
      var last := Lower(Candidate(flat, n));
      forall k | 1 <= k < n ensures Lower(Candidate(flat, k)) != last {
        CandidatesDiffer(flat, k, n);
      }
    }
  }

  /** Taken names bound how far the numbering can go: when the first n candidates are all
      taken, at least n names are. */
  lemma TakenBound(used: set<string>, flat: string, n: nat)
    requires forall k :: 1 <= k <= n ==> Lower(Candidate(flat, k)) in used
    ensures n <= |used|
  {
    TriedAll(flat, n);
    SubsetSize(Tried(flat, n), used);
  }

  /** The first free candidate, reached after at most |used| taken ones. */
  method FreeName(used: set<string>, flat: string) returns (candidate: string, n: nat)
    ensures candidate == Candidate(flat, n) && Lower(candidate) !in used
    ensures 1 <= n <= |used| + 1
    ensures forall k :: 1 <= k < n ==> Lower(Candidate(flat, k)) in used
  {
    candidate, n := flat, 1;
    while Lower(candidate) in used
      invariant n >= 1 && candidate == Candidate(flat, n)
      invariant forall k :: 1 <= k < n ==> Lower(Candidate(flat, k)) in used
      decreases |used| + 1 - n
    {
      TakenBound(used, flat, n);
      n := n + 1;
      candidate := flat + "-" + Digits(n);
    }
    TakenBound(used, flat, n - 1);
  }

  function Lowers(names: seq<string>): set<string> {
    set name | name in names :: Lower(name)
  }

  /** The name is the file's flat name with the smallest number free after `before`. */
  ghost predicate Numbered(filename: string, name: string, n: nat, before: seq<string>) {
    && 1 <= n <= |before| + 1
    && name == Candidate(Flat(filename), n)
    && Lower(name) !in Lowers(before)
    && forall k :: 1 <= k < n ==> Lower(Candidate(Flat(filename), k)) in Lowers(before)
  }

  lemma LowersOneMore(names: seq<string>, name: string)
    ensures Lowers(names + [name]) == Lowers(names) + {Lower(name)}
  {
    forall x | x in Lowers(names) + {Lower(name)} ensures x in Lowers(names + [name]) {
      if x == Lower(name) {
        assert name in names + [name];
      } else {
        var y :| y in names && Lower(y) == x;
        assert y in names + [name];
      }
    }
  }

  lemma {:induction false} LowersSize(names: seq<string>)
    ensures |Lowers(names)| <= |names|
  {
    if names != [] {
      LowersSize(names[..|names| - 1]);
      LowersOneMore(names[..|names| - 1], names[|names| - 1]);
      assert names == names[..|names| - 1] + [names[|names| - 1]];
    }
  }

  /** Each file, at its turn, gets its flat name with the smallest free number. */
  method StageNames(filenames: seq<string>) returns (names: seq<string>, ghost numbers: seq<nat>)
    ensures |names| == |numbers| == |filenames|
    ensures forall i :: 0 <= i < |names| ==> Numbered(filenames[i], names[i], numbers[i], names[..i])
    ensures forall i, j :: 0 <= i < j < |names| ==> Lower(names[i]) != Lower(names[j])
  {
    hide Flat, Candidate, Lower;
    names, numbers := [], [];
    var usedNames: set<string> := {};
    for i := 0 to |filenames|
      invariant |names| == |numbers| == i
      invariant usedNames == Lowers(names)
      invariant forall j :: 0 <= j < i ==> Numbered(filenames[j], names[j], numbers[j], names[..j])
    {
      var candidate, n := FreeName(usedNames, Flat(filenames[i]));
      LowersSize(names);
      assert Numbered(filenames[i], candidate, n, names);
      hide Numbered;
      ghost var before := names;
      LowersOneMore(names, candidate);
      usedNames := usedNames + {Lower(candidate)};
      names := names + [candidate];
      numbers := numbers + [n];
      assert forall j :: 0 <= j <= i ==> names[..j] == before[..j];
      assert before[..i] == before;
    }
    forall i, j | 0 <= i < j < |names| ensures Lower(names[i]) != Lower(names[j]) {
      assert Numbered(filenames[j], names[j], numbers[j], names[..j]);
      assert names[i] in names[..j];
    }
  }
}
