/**
  The naming conventions of the ingestion script (main.py): which top-level
  directories hold an active or a withdrawn participant, how a CSV file name
  splits into tags, participant id and table name, how a table name is
  normalised, and where a table's files go in the storage bucket.
 */
module Naming {
  import opened Options
  import opened Chars

  // ---------------------------------------------------------------------------
  // Directory classification (looper, main.py:25-42)
  // ---------------------------------------------------------------------------

  datatype DirStatus = Active | Withdrawn | Invalid

  function ActiveName(digits: string): string {
    "PPID " + digits + " Data"
  }

  function WithdrawnName(digits: string): string {
    "PPID " + digits + " Data - withdrew"
  }

  /** `re.match(r'^PPID [0-9]+ Data$', name)` succeeds. */
  ghost predicate ActivePattern(name: string) {
    exists digits :: |digits| > 0 && AllDigits(digits) && EndsAt(name, ActiveName(digits))
  }

  /** `re.match(r'^PPID [0-9]+ Data - withdrew$', name)` succeeds. */
  ghost predicate WithdrawnPattern(name: string) {
    exists digits :: |digits| > 0 && AllDigits(digits) && EndsAt(name, WithdrawnName(digits))
  }

  /** The text before Python's `$`: the whole name, or the name without one final newline. */
  predicate HasBody(name: string, body: string -> bool) {
    body(name) || (|name| > 0 && name[|name| - 1] == '\n' && body(name[..|name| - 1]))
  }

  predicate IsActiveBody(s: string) {
    |s| >= 11 && s[..5] == "PPID " && s[|s| - 5..] == " Data" && AllDigits(s[5..|s| - 5])
  }

  predicate IsWithdrawnBody(s: string) {
    |s| >= 22 && s[..5] == "PPID " && s[|s| - 16..] == " Data - withdrew" && AllDigits(s[5..|s| - 16])
  }

  predicate MatchesActive(name: string) {
    HasBody(name, IsActiveBody)
  }

  predicate MatchesWithdrawn(name: string) {
    HasBody(name, IsWithdrawnBody)
  }

  /** The withdrawn test runs first, then the active one; anything else is invalid. */
  function ClassifyDirectory(name: string): DirStatus {
    if MatchesWithdrawn(name) then Withdrawn
    else if MatchesActive(name) then Active
    else Invalid
  }

  /** A directory is withdrawn or active exactly when its name matches that
      convention's regular expression, and invalid when it matches neither. */
  lemma ClassifyDirectoryPatterns(name: string)
    ensures ClassifyDirectory(name) == Withdrawn <==> WithdrawnPattern(name)
    ensures ClassifyDirectory(name) == Active <==> ActivePattern(name)
    ensures ClassifyDirectory(name) == Invalid <==> !ActivePattern(name) && !WithdrawnPattern(name)
  {
    ActiveBodyIsPattern(name);
    WithdrawnBodyIsPattern(name);
    PatternsDisjoint(name);
  }

  lemma ActiveBodyExact(s: string)
    ensures IsActiveBody(s) <==> exists digits :: |digits| > 0 && AllDigits(digits) && s == ActiveName(digits)
  {
    if IsActiveBody(s) {
      var digits := s[5..|s| - 5];
      assert s == s[..5] + digits + s[|s| - 5..];
      assert s == ActiveName(digits);
    }
    if exists digits :: |digits| > 0 && AllDigits(digits) && s == ActiveName(digits) {
      var digits :| |digits| > 0 && AllDigits(digits) && s == ActiveName(digits);
      assert s[..5] == "PPID ";
      assert s[|s| - 5..] == " Data";
      assert s[5..|s| - 5] == digits;
    }
  }

  lemma WithdrawnBodyExact(s: string)
    ensures IsWithdrawnBody(s) <==> exists digits :: |digits| > 0 && AllDigits(digits) && s == WithdrawnName(digits)
  {
    if IsWithdrawnBody(s) {
      var digits := s[5..|s| - 16];
      assert s == s[..5] + digits + s[|s| - 16..];
      assert s == WithdrawnName(digits);
    }
    if exists digits :: |digits| > 0 && AllDigits(digits) && s == WithdrawnName(digits) {
      var digits :| |digits| > 0 && AllDigits(digits) && s == WithdrawnName(digits);
      assert s[..5] == "PPID ";
      assert s[|s| - 16..] == " Data - withdrew";
      assert s[5..|s| - 16] == digits;
    }
  }

  /** Python's `$` splits into its two cases for a body that does not end in a newline. */
  lemma EndsAtCases(name: string, body: string)
    requires |body| > 0 && body[|body| - 1] != '\n'
    ensures EndsAt(name, body) <==>
      name == body || (|name| > 0 && name[|name| - 1] == '\n' && name[..|name| - 1] == body)
  {
    if |name| > 0 && name[|name| - 1] == '\n' && name[..|name| - 1] == body {
      assert name == name[..|name| - 1] + [name[|name| - 1]];
    }
    if name == body + "\n" {
      assert name[..|name| - 1] == body;
    }
  }

  /** The index-based test agrees with the regular expression, in both directions. */
  lemma ActiveBodyIsPattern(name: string)
    ensures MatchesActive(name) <==> ActivePattern(name)
  {
    ActiveBodyExact(name);
    if |name| > 0 && name[|name| - 1] == '\n' {
      ActiveBodyExact(name[..|name| - 1]);
    }
    forall digits | |digits| > 0 && AllDigits(digits)
      ensures EndsAt(name, ActiveName(digits)) <==>
        name == ActiveName(digits) || (|name| > 0 && name[|name| - 1] == '\n' && name[..|name| - 1] == ActiveName(digits))
    {
      EndsAtCases(name, ActiveName(digits));
    }
  }

  lemma WithdrawnBodyIsPattern(name: string)
    ensures MatchesWithdrawn(name) <==> WithdrawnPattern(name)
  {
    WithdrawnBodyExact(name);
    if |name| > 0 && name[|name| - 1] == '\n' {
      WithdrawnBodyExact(name[..|name| - 1]);
    }
    forall digits | |digits| > 0 && AllDigits(digits)
      ensures EndsAt(name, WithdrawnName(digits)) <==>
        name == WithdrawnName(digits) || (|name| > 0 && name[|name| - 1] == '\n' && name[..|name| - 1] == WithdrawnName(digits))
    {
      EndsAtCases(name, WithdrawnName(digits));
    }
  }

  /** No directory name matches both conventions. */
  lemma PatternsDisjoint(name: string)
    ensures !(ActivePattern(name) && WithdrawnPattern(name))
  {
    if ActivePattern(name) {
      var d1 :| |d1| > 0 && AllDigits(d1) && EndsAt(name, ActiveName(d1));
      var a := ActiveName(d1);
      assert a[|a| - 1] == 'a';
      EndsAtCases(name, a);
      forall d2 | |d2| > 0 && AllDigits(d2)
        ensures !EndsAt(name, WithdrawnName(d2))
      {
        var w := WithdrawnName(d2);
        assert w[|w| - 1] == 'w';
        EndsAtCases(name, w);
      }
    }
  }

  // ---------------------------------------------------------------------------
  // File-name parsing (participantIngest, main.py:55-61)
  // ---------------------------------------------------------------------------

  /** The four capture groups of `^(\w+)_(\w+)_(\w+)_([0-9a-zA-Z \-]+)\.csv$`. */
  datatype FileMatch = FileMatch(tag1: string, tag2: string, pid: string, rawTable: string)

  function FileName(g1: string, g2: string, g3: string, g4: string): string {
    g1 + "_" + g2 + "_" + g3 + "_" + g4 + ".csv"
  }

  /** The file-name pattern matches `name` with these four groups. */
  ghost predicate FileNameMatch(name: string, g1: string, g2: string, g3: string, g4: string) {
    IsWord(g1) && IsWord(g2) && IsWord(g3) && IsTableTag(g4) && EndsAt(name, FileName(g1, g2, g3, g4))
  }

  /** The last index below `end` that holds `c`, if any. */
  function LastIndexOf(s: string, c: char, end: nat): (r: Option<nat>)
    requires end <= |s|
    ensures r.Some? ==> r.value < end && s[r.value] == c
    ensures r.Some? ==> forall k :: r.value < k < end ==> s[k] != c
    ensures r.None? ==> forall k :: 0 <= k < end ==> s[k] != c
  {
    if end == 0 then None
    else if s[end - 1] == c then Some(end - 1)
    else LastIndexOf(s, c, end - 1)
  }

  /** The text that `\.csv$` leaves to the groups. */
  function Stem(name: string): Option<string> {
    if |name| >= 4 && name[|name| - 4..] == ".csv" then Some(name[..|name| - 4])
    else if |name| >= 5 && name[|name| - 5..] == ".csv\n" then Some(name[..|name| - 5])
    else None
  }

  /** Groups 1 to 3, from the text before the last underscore. */
  datatype Tags = Tags(tag1: string, tag2: string, pid: string)

  /**
    Splits `p` at its last underscore that leaves group 3 non-empty, and the
    text before at its last underscore that leaves group 2 non-empty: the
    choice Python's backtracking makes for `(\w+)_(\w+)_(\w+)`, group 1 as
    long as possible and then group 2 as long as possible.
   */
  function SplitTags(p: string): Option<Tags> {
    if |p| == 0 then None
    else
      match LastIndexOf(p, '_', |p| - 1)
      case None => None
      case Some(j) =>
        if j == 0 then None
        else
          match LastIndexOf(p, '_', j - 1)
          case None => None
          case Some(i) =>
            if i == 0 then None else Some(Tags(p[..i], p[i + 1..j], p[j + 1..]))
  }

  /**
    `re.match` of the file-name pattern. Group 4 holds no underscore, so it is
    the text after the last underscore of the stem; groups 1 to 3 hold word
    characters, underscores included, and `SplitTags` picks them.
   */
  function ParseFileName(name: string): (r: Option<FileMatch>)
    ensures r.Some? ==> IsWord(r.value.pid) && IsTableTag(r.value.rawTable)
  {
    match Stem(name)
    case None => None
    case Some(x) =>
      match LastIndexOf(x, '_', |x|)
      case None => None
      case Some(k) =>
        var prefix, raw := x[..k], x[k + 1..];
        if !IsTableTag(raw) || !IsWord(prefix) then None
        else
          match SplitTags(prefix)
          case None => None
          case Some(t) =>
            WordParts(t.tag1, t.tag2, t.pid);
            Some(FileMatch(t.tag1, t.tag2, t.pid, raw))
  }

  /** The last `c` below `end` is at `pos` when `pos` holds one and nothing between does. */
  lemma LastIndexOfAt(s: string, c: char, end: nat, pos: nat)
    requires pos < end <= |s| && s[pos] == c
    requires forall k :: pos < k < end ==> s[k] != c
    ensures LastIndexOf(s, c, end) == Some(pos)
  {
  }

  /** The groups `SplitTags` picks are non-empty and joined by underscores give `p` back. */
  lemma SplitTagsSound(p: string)
    requires SplitTags(p).Some?
    ensures var t := SplitTags(p).value;
      |t.tag1| > 0 && |t.tag2| > 0 && |t.pid| > 0 && p == t.tag1 + "_" + t.tag2 + "_" + t.pid
  {
    var j := LastIndexOf(p, '_', |p| - 1).value;
    var i := LastIndexOf(p, '_', j - 1).value;
    assert p[..j] == p[..i] + [p[i]] + p[i + 1..j];
    assert p == p[..j] + [p[j]] + p[j + 1..];
  }

  /** Any split of `p` into three non-empty groups is one `SplitTags` accepts,
      and its own choice has the longest group 1 and the shortest group 3. */
  lemma SplitTagsGreedy(g1: string, g2: string, g3: string)
    requires |g1| > 0 && |g2| > 0 && |g3| > 0
    ensures var t := SplitTags(g1 + "_" + g2 + "_" + g3);
      t.Some? && |g1| <= |t.value.tag1| && |t.value.pid| <= |g3|
  {
    var p := g1 + "_" + g2 + "_" + g3;
    var jo := |g1| + 1 + |g2|;
    assert p[jo] == '_' && p[|g1|] == '_';
    var j := LastIndexOf(p, '_', |p| - 1).value;
    var i := LastIndexOf(p, '_', j - 1).value;
    assert jo <= j && |g1| <= i;
  }

  /** Below the last character of `a + "_" + b`, the last underscore is the
      one before `b` when `b` holds none. */
  lemma UnderscoreBefore(a: string, b: string)
    requires |b| > 0 && '_' !in b
    ensures LastIndexOf(a + "_" + b, '_', |a| + |b|) == Some(|a|)
  {
    var s := a + "_" + b;
    forall k | |a| < k < |a| + |b| ensures s[k] != '_' {
      assert s[k] == b[k - |a| - 1];
    }
    LastIndexOfAt(s, '_', |a| + |b|, |a|);
  }

  /** Text after position `end` does not change the search below it. */
  lemma {:induction false} LastIndexOfPrefix(s: string, t: string, c: char, end: nat)
    requires end <= |s|
    ensures LastIndexOf(s + t, c, end) == LastIndexOf(s, c, end)
    decreases end
  {
    if end > 0 {
      assert (s + t)[end - 1] == s[end - 1];
      LastIndexOfPrefix(s, t, c, end - 1);
    }
  }

  /** When groups 2 and 3 hold no underscore, `SplitTags` finds exactly them. */
  lemma SplitTagsExact(g1: string, g2: string, g3: string)
    requires |g1| > 0 && |g2| > 0 && |g3| > 0 && '_' !in g2 && '_' !in g3
    ensures SplitTags(g1 + "_" + g2 + "_" + g3) == Some(Tags(g1, g2, g3))
  {
    var q := g1 + "_" + g2;
    var p := q + "_" + g3;
    UnderscoreBefore(q, g3);
    UnderscoreBefore(g1, g2);
    LastIndexOfPrefix(q, "_" + g3, '_', |q| - 1);
    assert p == q + ("_" + g3);
    assert p[..|g1|] == g1 && p[|g1| + 1..|q|] == g2 && p[|q| + 1..] == g3;
  }

  /** The last underscore of `p + "_" + g4` is the one before `g4` when `g4` is a table tag. */
  lemma LastSplit(p: string, g4: string)
    requires IsTableTag(g4)
    ensures var x := p + "_" + g4;
      LastIndexOf(x, '_', |x|) == Some(|p|) && x[..|p|] == p && x[|p| + 1..] == g4
  {
    var x := p + "_" + g4;
    forall k | |p| < k < |x| ensures x[k] != '_' {
      assert x[k] == g4[k - |p| - 1];
    }
    LastIndexOfAt(x, '_', |x|, |p|);
  }

  lemma StemOf(g1: string, g2: string, g3: string, g4: string, name: string)
    requires EndsAt(name, FileName(g1, g2, g3, g4))
    ensures Stem(name) == Some(g1 + "_" + g2 + "_" + g3 + "_" + g4)
  {
    var x := g1 + "_" + g2 + "_" + g3 + "_" + g4;
    assert FileName(g1, g2, g3, g4) == x + ".csv";
    if name == x + ".csv" {
      assert name[|name| - 4..] == ".csv";
      assert name[..|name| - 4] == x;
    } else {
      assert name == x + ".csv\n";
      assert name[|name| - 4..] != ".csv" by {
        assert name[|name| - 1] == '\n';
      }
      assert name[|name| - 5..] == ".csv\n";
      assert name[..|name| - 5] == x;
    }
  }

  lemma StemBack(name: string, x: string)
    requires Stem(name) == Some(x)
    ensures EndsAt(name, x + ".csv")
  {
    var n := |name|;
    if n >= 4 && name[n - 4..] == ".csv" {
      assert x == name[..n - 4];
      assert name == x + ".csv" by {
        assert forall k :: 0 <= k < n ==> name[k] == (x + ".csv")[k];
      }
    } else {
      assert x == name[..n - 5] && name[n - 5..] == ".csv\n";
      assert name == x + ".csv" + "\n" by {
        assert forall k :: 0 <= k < n ==> name[k] == (x + ".csv" + "\n")[k];
      }
    }
  }


  /** Every match the parser reports is a match of the pattern. */
  lemma ParseSound(name: string)
    requires ParseFileName(name).Some?
    ensures var m := ParseFileName(name).value;
      FileNameMatch(name, m.tag1, m.tag2, m.pid, m.rawTable)
  {
    var m := ParseFileName(name).value;
    var x := Stem(name).value;
    var k := LastIndexOf(x, '_', |x|).value;
    var prefix, raw := x[..k], x[k + 1..];
    SplitTagsSound(prefix);
    WordParts(m.tag1, m.tag2, m.pid);
    assert x == prefix + "_" + raw by {
      assert x == x[..k] + [x[k]] + x[k + 1..];
    }
    StemBack(name, x);
  }

  /** Whenever the pattern matches, the parser reports a match, and its choice
      of groups is Python's: group 1 longest, group 3 shortest, group 4 the only
      possible one. */
  lemma ParseCompleteAndGreedy(name: string, g1: string, g2: string, g3: string, g4: string)
    requires FileNameMatch(name, g1, g2, g3, g4)
    ensures ParseFileName(name).Some?
    ensures var m := ParseFileName(name).value;
      m.rawTable == g4 && |g1| <= |m.tag1| && |m.pid| <= |g3|
  {
    StemOf(g1, g2, g3, g4, name);
    var p := g1 + "_" + g2 + "_" + g3;
    LastSplit(p, g4);
    WordJoin(g1, g2);
    WordJoin(g1 + "_" + g2, g3);
    SplitTagsGreedy(g1, g2, g3);
  }

  /** Building a file name and parsing it gives the groups back, whenever
      groups 2 and 3 hold no underscore (group 1 may hold any number). */
  lemma ParseFileNameRoundTrip(g1: string, g2: string, g3: string, g4: string)
    requires IsWord(g1) && IsWord(g2) && IsWord(g3) && IsTableTag(g4)
    requires '_' !in g2 && '_' !in g3
    ensures ParseFileName(FileName(g1, g2, g3, g4)) == Some(FileMatch(g1, g2, g3, g4))
  {
    StemOf(g1, g2, g3, g4, FileName(g1, g2, g3, g4));
    var p := g1 + "_" + g2 + "_" + g3;
    LastSplit(p, g4);
    WordJoin(g1, g2);
    WordJoin(g1 + "_" + g2, g3);
    SplitTagsExact(g1, g2, g3);
  }

  lemma ParseCompleteInverse(name: string)
    requires ParseFileName(name).None?
    ensures forall g1, g2, g3, g4 :: !FileNameMatch(name, g1, g2, g3, g4)
  {
    forall g1, g2, g3, g4 | FileNameMatch(name, g1, g2, g3, g4)
      ensures false
    {
      ParseCompleteAndGreedy(name, g1, g2, g3, g4);
    }
  }

  // ---------------------------------------------------------------------------
  // Table-name normalisation (participantIngest, main.py:62-64)
  // ---------------------------------------------------------------------------

  /** Python's `s.replace(from, to)` for a one-character `from` and `to`. */
  function ReplaceChar(s: string, from: char, to: char): (r: string)
    ensures |r| == |s|
    ensures forall i :: 0 <= i < |s| ==> r[i] == (if s[i] == from then to else s[i])
  {
    if s == [] then []
    else [if s[0] == from then to else s[0]] + ReplaceChar(s[1..], from, to)
  }

  /** Spaces are replaced with `_`, then hyphens with `_`. */
  function Normalize(raw: string): (r: string)
    ensures |r| == |raw|
    ensures forall i :: 0 <= i < |raw| ==>
      r[i] == (if raw[i] == ' ' || raw[i] == '-' then '_' else raw[i])
  {
    ReplaceChar(ReplaceChar(raw, ' ', '_'), '-', '_')
  }

  predicate IsNormal(s: string) {
    forall i :: 0 <= i < |s| ==> s[i] != ' ' && s[i] != '-'
  }

  /** A normalised name holds no space and no hyphen, and normalising again changes nothing. */
  lemma NormalizeIdempotent(raw: string)
    ensures IsNormal(Normalize(raw))
    ensures Normalize(Normalize(raw)) == Normalize(raw)
  {
  }

  /** Names without spaces and hyphens, upper case included, are left as they are. */
  lemma NormalizeFixesNormal(s: string)
    requires IsNormal(s)
    ensures Normalize(s) == s
  {
  }

  // ---------------------------------------------------------------------------
  // Storage path of a table (ingestData, main.py:90-94)
  // ---------------------------------------------------------------------------

  /** `{s3_path}/{tablename}/`, without the added `/` when the root already ends in one.
      An empty root makes `s3_path[-1]` raise, so it is outside the domain. */
  function TablePath(s3Path: string, table: string): (r: string)
    requires |s3Path| > 0
    ensures |r| == |s3Path| + |table| + (if s3Path[|s3Path| - 1] == '/' then 1 else 2)
    ensures r[..|s3Path|] == s3Path
    ensures r[|r| - |table| - 2..] == "/" + table + "/"
  {
    if s3Path[|s3Path| - 1] == '/' then s3Path + table + "/"
    else s3Path + "/" + table + "/"
  }

  /** A root given with or without its trailing `/` yields the same path. */
  lemma TablePathTrailingSlash(s3Path: string, table: string)
    requires |s3Path| > 0 && s3Path[|s3Path| - 1] != '/'
    ensures TablePath(s3Path + "/", table) == TablePath(s3Path, table)
  {
  }
}
