/** Names a provider allows, made safe as path segments, and the paths built from them. */
module RemoteNames {
  import opened Options

  /** The characters JavaScript's trim removes. */
  predicate IsSpace(c: char) {
    || '\t' <= c <= '\r' || c == ' ' || c == '\U{00A0}' || c == '\U{1680}' || '\U{2000}' <= c <= '\U{200A}'
    || '\U{2028}' <= c <= '\U{2029}' || c == '\U{202F}' || c == '\U{205F}' || c == '\U{3000}' || c == '\U{FEFF}'
  }

  function TrimStart(s: string): string {
    if s != "" && IsSpace(s[0]) then TrimStart(s[1..]) else s
  }

  function TrimEnd(s: string): string {
    if s != "" && IsSpace(s[|s| - 1]) then TrimEnd(s[..|s| - 1]) else s
  }

  function Trim(s: string): string { TrimEnd(TrimStart(s)) }

  predicate Forbidden(c: char) { c in "/\\\0" }

  function Underscored(s: string): string {
    seq(|s|, i requires 0 <= i < |s| => if Forbidden(s[i]) then '_' else s[i])
  }

  predicate HasDotDot(s: string) { exists i | 0 <= i < |s| - 1 :: s[i] == '.' && s[i + 1] == '.' }

  /** Every non-overlapping ".." becomes "._", left to right. */
  function ReplaceDotDot(s: string): string {
    if |s| < 2 then s
    else if s[0] == '.' && s[1] == '.' then "._" + ReplaceDotDot(s[2..])
    else [s[0]] + ReplaceDotDot(s[1..])
  }

  function Dots(s: string): nat { if s == "" then 0 else Dots(s[1..]) + if s[0] == '.' then 1 else 0 }

  lemma {:induction false} ReplaceDropsDots(s: string)
    ensures Dots(ReplaceDotDot(s)) <= Dots(s)
    ensures HasDotDot(s) ==> Dots(ReplaceDotDot(s)) < Dots(s)
  {
    if |s| >= 2 {
      if s[0] == '.' && s[1] == '.' {
        ReplaceDropsDots(s[2..]);
        var r := ReplaceDotDot(s);
        assert r[1..][1..] == ReplaceDotDot(s[2..]) && s[1..][1..] == s[2..];
      } else {
        ReplaceDropsDots(s[1..]);
        assert ReplaceDotDot(s)[1..] == ReplaceDotDot(s[1..]);
        if HasDotDot(s) {
          var i :| 0 <= i < |s| - 1 && s[i] == '.' && s[i + 1] == '.';
          assert s[1..][i - 1] == '.' && s[1..][i] == '.';
        }
      }
    }
  }

  function Defang(s: string): string
    decreases Dots(s)
  {
    ReplaceDropsDots(s);
    if HasDotDot(s) then Defang(ReplaceDotDot(s)) else s
  }

  /** sanitizeRemoteName, as a function of the name. */
  function Sanitize(name: string): string {
    var safe := Defang(Trim(Underscored(name)));
    if safe == "" then "_" else safe
  }

  /** sanitizeRemoteName, as the loop it is. */
  method SanitizeRemoteName(name: string) returns (safe: string)
    ensures safe == Sanitize(name)
  {
    safe := Trim(Underscored(name));
    while HasDotDot(safe)
      invariant Defang(safe) == Defang(Trim(Underscored(name)))
      decreases Dots(safe)
    {
      ReplaceDropsDots(safe);
      safe := ReplaceDotDot(safe);
    }
    if safe == "" { safe := "_"; }
  }

  // ----------------------------------------- what the loop computes, in one look

  /** How many dots stand immediately before position `i`. */
  function DotsBefore(s: string, i: nat): nat requires i <= |s| {
    if i > 0 && s[i - 1] == '.' then 1 + DotsBefore(s, i - 1) else 0
  }

  lemma {:induction false} DotsBeforeShift(s: string, k: nat, i: nat)
    requires k <= i <= |s| && (k == 0 || s[k - 1] != '.' || (k == 2 && s[0] == '.' && s[1] == '.'))
    ensures DotsBefore(s, i) % 2 == DotsBefore(s[k..], i - k) % 2
    decreases i
  {
    if i > k {
      DotsBeforeShift(s, k, i - 1);
      assert s[k..][i - k - 1] == s[i - 1];
    } else if k == 2 {
      assert DotsBefore(s, 1) == (if s[0] == '.' then 1 else 0);
    }
  }

  /** One pass already suffices: a dot is replaced exactly when an odd number of
      dots stands immediately before it. */
  lemma {:induction false} OnePassIsEnough(s: string)
    ensures |ReplaceDotDot(s)| == |s| && !HasDotDot(ReplaceDotDot(s))
    ensures forall i | 0 <= i < |s| ::
              ReplaceDotDot(s)[i] == if s[i] == '.' && DotsBefore(s, i) % 2 == 1 then '_' else s[i]
  {
    if |s| >= 2 {
      var k := if s[0] == '.' && s[1] == '.' then 2 else 1;
      OnePassIsEnough(s[k..]);
      forall i | k <= i < |s|
        ensures ReplaceDotDot(s)[i] == if s[i] == '.' && DotsBefore(s, i) % 2 == 1 then '_' else s[i]
      {
        assert s[k..][i - k] == s[i];
        if k == 2 || s[0] != '.' { DotsBeforeShift(s, k, i); } else { LoneDot(s, i); }
      }
      var r := ReplaceDotDot(s);
      forall i | 0 <= i < |r| - 1 ensures !(r[i] == '.' && r[i + 1] == '.') {
        if i >= k { assert r[i] == ReplaceDotDot(s[k..])[i - k] && r[i + 1] == ReplaceDotDot(s[k..])[i + 1 - k]; }
      }
    }
  }

  /** A single leading dot does not change the count behind the next character. */
  lemma {:induction false} LoneDot(s: string, i: nat)
    requires |s| >= 2 && s[0] == '.' && s[1] != '.' && 1 <= i < |s|
    ensures s[i] == '.' ==> DotsBefore(s, i) == DotsBefore(s[1..], i - 1)
    ensures i >= 2 ==> DotsBefore(s, i) == DotsBefore(s[1..], i - 1)
    decreases i
  {
    if i >= 3 { LoneDot(s, i - 1); }
  }

  // ------------------------------------------------------ safe path segments

  ghost predicate Safe(s: string) {
    s != "" && (forall c | c in s :: !Forbidden(c)) && !HasDotDot(s)
  }

  lemma {:induction false} TrimStartPart(s: string)
    ensures forall c | c in TrimStart(s) :: c in s
    ensures TrimStart(s) != "" ==> !IsSpace(TrimStart(s)[0])
  {
    if s != "" && IsSpace(s[0]) { TrimStartPart(s[1..]); }
  }

  lemma {:induction false} TrimEndPart(s: string)
    ensures TrimEnd(s) <= s
    ensures TrimEnd(s) != "" ==> !IsSpace(TrimEnd(s)[|TrimEnd(s)| - 1])
  {
    if s != "" && IsSpace(s[|s| - 1]) { TrimEndPart(s[..|s| - 1]); }
  }

  /** What is left at the end of what was left at the start. */
  lemma EndOfStart(s: string, start: string, end: string)
    requires (forall c | c in start :: c in s) && (start != "" ==> !IsSpace(start[0])) && end <= start
    ensures (forall c | c in end :: c in s) && (end != "" ==> !IsSpace(end[0]))
  {
    forall c | c in end ensures c in s {
      var i :| 0 <= i < |end| && end[i] == c;
      assert start[i] == c;
    }
  }

  lemma TrimProperties(s: string)
    ensures forall c | c in Trim(s) :: c in s
    ensures Trim(s) != "" ==> !IsSpace(Trim(s)[0]) && !IsSpace(Trim(s)[|Trim(s)| - 1])
  {
    TrimStartPart(s);
    TrimEndPart(TrimStart(s));
    EndOfStart(s, TrimStart(s), Trim(s));
  }

  /** Replacing dots by underscores keeps the length and introduces nothing else. */
  lemma DefangOnePass(t: string)
    ensures !HasDotDot(Defang(t)) && |Defang(t)| == |t|
    ensures forall i | 0 <= i < |t| :: Defang(t)[i] == t[i] || (t[i] == '.' && Defang(t)[i] == '_')
  {
    OnePassIsEnough(t);
    if HasDotDot(t) {
      assert Defang(t) == Defang(ReplaceDotDot(t)) == ReplaceDotDot(t);
    }
  }

  lemma UnderscoredClean(name: string)
    ensures forall c | c in Underscored(name) :: !Forbidden(c)
  {
  }

  lemma DefangClean(t: string)
    requires forall c | c in t :: !Forbidden(c)
    ensures forall c | c in Defang(t) :: !Forbidden(c)
  {
    DefangOnePass(t);
    forall i | 0 <= i < |t| ensures !Forbidden(Defang(t)[i]) { assert t[i] in t; }
  }

  lemma DefangEnds(t: string)
    requires t != "" && !IsSpace(t[0]) && !IsSpace(t[|t| - 1])
    ensures var d := Defang(t); d != "" && !IsSpace(d[0]) && !IsSpace(d[|d| - 1])
  {
    DefangOnePass(t);
  }

  lemma SanitizeShape(name: string)
    ensures Safe(Sanitize(name))
    ensures !IsSpace(Sanitize(name)[0]) && !IsSpace(Sanitize(name)[|Sanitize(name)| - 1])
  {
    var t := Trim(Underscored(name));
    UnderscoredClean(name);
    TrimProperties(Underscored(name));
    DefangClean(t);
    DefangOnePass(t);
    if t != "" { DefangEnds(t); }
  }

  /** Nothing of what sanitising guards against is left, and doing it again
      changes nothing. */
  lemma SanitizeSafeAndIdempotent(name: string)
    ensures Safe(Sanitize(name))
    ensures Sanitize(Sanitize(name)) == Sanitize(name)
  {
    var s := Sanitize(name);
    SanitizeShape(name);
    assert forall i | 0 <= i < |s| :: s[i] in s;
    assert Underscored(s) == s;
    assert TrimStart(s) == s && TrimEnd(s) == s;
  }

  // ---------------------------------------------------------- character by character

  lemma {:induction false} TrimStartCuts(s: string) returns (k: nat)
    ensures k <= |s| && TrimStart(s) == s[k..] && forall i | 0 <= i < k :: IsSpace(s[i])
  {
    if s != "" && IsSpace(s[0]) {
      var j := TrimStartCuts(s[1..]);
      k := j + 1;
    } else {
      k := 0;
    }
  }

  lemma {:induction false} TrimEndCuts(s: string)
    ensures TrimEnd(s) <= s && forall i | |TrimEnd(s)| <= i < |s| :: IsSpace(s[i])
  {
    if s != "" && IsSpace(s[|s| - 1]) { TrimEndCuts(s[..|s| - 1]); }
  }

  /** What trimming keeps: everything but the spaces at the two ends. */
  ghost predicate Trimmed(s: string, from: nat, to: nat) {
    && from <= to <= |s| && (forall i | 0 <= i < from || to <= i < |s| :: IsSpace(s[i]))
    && (from < to ==> !IsSpace(s[from]) && !IsSpace(s[to - 1]))
  }

  lemma TrimIs(s: string) returns (from: nat, to: nat)
    ensures Trimmed(s, from, to) && Trim(s) == s[from..to]
  {
    from := TrimStartCuts(s);
    TrimEndCuts(TrimStart(s));
    TrimProperties(s);
    to := from + |Trim(s)|;
    CutsTrim(s, from, TrimStart(s), Trim(s));
  }

  lemma CutsTrim(s: string, from: nat, start: string, both: string)
    requires from <= |s| && start == s[from..] && both <= start
    requires forall i | 0 <= i < from :: IsSpace(s[i])
    requires forall i | |both| <= i < |start| :: IsSpace(start[i])
    requires both != "" ==> !IsSpace(both[0]) && !IsSpace(both[|both| - 1])
    ensures Trimmed(s, from, from + |both|) && both == s[from..from + |both|]
  {
    forall i | from + |both| <= i < |s| ensures IsSpace(s[i]) { assert start[i - from] == s[i]; }
  }

  lemma UnderscoredTrimmed(s: string, from: nat, to: nat)
    requires Trimmed(Underscored(s), from, to)
    ensures Trimmed(s, from, to) && Underscored(s)[from..to] == Underscored(s[from..to])
  {
    assert forall i | 0 <= i < |s| :: IsSpace(Underscored(s)[i]) <==> IsSpace(s[i]);
  }

  lemma {:induction false} SameDots(s: string, t: string, i: nat)
    requires |s| == |t| && i <= |s| && forall j | 0 <= j < |s| :: s[j] == '.' <==> t[j] == '.'
    ensures DotsBefore(s, i) == DotsBefore(t, i)
    decreases i
  {
    if i > 0 { SameDots(s, t, i - 1); }
  }

  /** What a character becomes: a slash, backslash or NUL an underscore, and so every
      second one of dots in a row. */
  function Cleaned(t: string, i: nat): char
    requires i < |t|
  {
    if t[i] == '/' || t[i] == '\\' || t[i] == '\0' then '_'
    else if t[i] == '.' && DotsBefore(t, i) % 2 == 1 then '_'
    else t[i]
  }

  /** The sanitised name in one look: spaces go from both ends, what is left is cleaned
      character by character, and a name of which nothing is left is an underscore. */
  lemma SanitizeExactly(name: string) returns (from: nat, to: nat)
    ensures Trimmed(name, from, to)
    ensures from == to ==> Sanitize(name) == "_"
    ensures from < to ==>
              var t := name[from..to];
              |Sanitize(name)| == |t| && forall i | 0 <= i < |t| :: Sanitize(name)[i] == Cleaned(t, i)
  {
    from, to := TrimIs(Underscored(name));
    UnderscoredTrimmed(name, from, to);
    var t := name[from..to];
    CleanedIs(t);
  }

  lemma CleanedIs(t: string)
    ensures var d := Defang(Underscored(t)); |d| == |t| && forall i | 0 <= i < |t| :: d[i] == Cleaned(t, i)
  {
    var u := Underscored(t);
    DefangIsOnePass(u);
    OnePassIsEnough(u);
    forall i | 0 <= i < |t| ensures ReplaceDotDot(u)[i] == Cleaned(t, i) { SameDots(u, t, i); }
  }

  lemma DefangIsOnePass(t: string)
    ensures Defang(t) == ReplaceDotDot(t)
  {
    OnePassIsEnough(t);
    if HasDotDot(t) { assert Defang(t) == Defang(ReplaceDotDot(t)); } else { NothingReplaced(t); }
  }

  lemma {:induction false} NothingReplaced(t: string)
    requires !HasDotDot(t)
    ensures ReplaceDotDot(t) == t
  {
    if |t| >= 2 {
      assert forall i | 0 <= i < |t| - 1 :: t[1..][i] == t[i + 1];
      NothingReplaced(t[1..]);
    }
  }

  // -------------------------------------------------------- effective names

  function LowerChar(c: char): char { if 'A' <= c <= 'Z' then (c - 'A') + 'a' else c }

  function Lower(s: string): string { seq(|s|, i requires 0 <= i < |s| => LowerChar(s[i])) }

  predicate EndsWith(s: string, suffix: string) { |s| >= |suffix| && s[|s| - |suffix|..] == suffix }

  /** effectiveName: a native document carries the exported format's extension. */
  function EffectiveName(name: string, exportExtension: Option<string>): string {
    var safe := Sanitize(name);
    if exportExtension.None? || exportExtension.value == "" then safe
    else if EndsWith(Lower(safe), "." + exportExtension.value) then safe
    else safe + "." + exportExtension.value
  }

  /** The same character, or the capital of a small letter. */
  predicate SameLetter(c: char, small: char) { c == small || ('a' <= small <= 'z' && c == (small - 'a') + 'A') }

  /** `safe` ends in a dot and the extension, in letters of either case. */
  predicate HasExtension(safe: string, x: string) {
    && |safe| >= |x| + 1 && safe[|safe| - |x| - 1] == '.'
    && forall i | 0 <= i < |x| :: SameLetter(safe[|safe| - |x|..][i], x[i])
  }

  /** A name that has the extension already, in letters of either case, is kept, any other
      gets a dot and the extension; so the name always has it. */
  lemma ExtensionOnce(name: string, x: string)
    requires x != "" && forall i | 0 <= i < |x| :: !('A' <= x[i] <= 'Z')
    ensures var safe, r := Sanitize(name), EffectiveName(name, Some(x));
            && r == (if HasExtension(safe, x) then safe else safe + "." + x) && HasExtension(r, x)
  {
    var safe := Sanitize(name);
    EndingIs(safe, x);
    var r := safe + "." + x;
    assert r[|r| - |x| - 1] == '.' && forall i | 0 <= i < |x| :: r[|r| - |x| + i] == x[i];
  }

  lemma EndingIs(safe: string, x: string)
    requires forall i | 0 <= i < |x| :: !('A' <= x[i] <= 'Z')
    ensures EndsWith(Lower(safe), "." + x) <==> HasExtension(safe, x)
  {
    if |safe| >= |x| + 1 {
      var at := |safe| - |x| - 1;
      var tail := Lower(safe)[at..];
      assert tail == [LowerChar(safe[at])] + Lower(safe)[at + 1..] && "." + x == ['.'] + x;
      LettersMatch(safe[at + 1..], x);
      assert Lower(safe)[at + 1..] == Lower(safe[at + 1..]);
      SplitEqual(LowerChar(safe[at]), Lower(safe[at + 1..]), '.', x);
    }
  }

  lemma SplitEqual(a: char, s: string, b: char, t: string)
    ensures [a] + s == [b] + t <==> a == b && s == t
  {
    assert ([a] + s)[0] == a && ([b] + t)[0] == b && ([a] + s)[1..] == s && ([b] + t)[1..] == t;
  }

  lemma LetterMatches(c: char, small: char)
    requires !('A' <= small <= 'Z')
    ensures LowerChar(c) == small <==> SameLetter(c, small)
  {
  }

  lemma LettersMatch(s: string, x: string)
    requires |s| == |x| && forall i | 0 <= i < |x| :: !('A' <= x[i] <= 'Z')
    ensures Lower(s) == x <==> forall i | 0 <= i < |x| :: SameLetter(s[i], x[i])
  {
    forall i | 0 <= i < |x| ensures Lower(s)[i] == x[i] <==> SameLetter(s[i], x[i]) { LetterMatches(s[i], x[i]); }
  }

  /** An extension as the export table has them: "txt", "csv". */
  predicate PlainExtension(x: string) { x != "" && forall c | c in x :: !Forbidden(c) && c != '.' }

  /** Appending "." and an extension to a safe name. */
  lemma ExtendedSafeIff(safe: string, x: string)
    requires Safe(safe) && PlainExtension(x)
    ensures Safe(safe + "." + x) <==> !EndsWith(safe, ".")
    ensures forall c | c in safe + "." + x :: !Forbidden(c)
  {
    var r := safe + "." + x;
    assert safe[|safe| - 1..] == [safe[|safe| - 1]];
    if EndsWith(safe, ".") {
      assert r[|safe| - 1] == '.' && r[|safe|] == '.';
    } else {
      forall i | 0 <= i < |r| - 1 ensures !(r[i] == '.' && r[i + 1] == '.') {
        if i >= |safe| { assert r[i + 1] == x[i - |safe|] && x[i - |safe|] in x; }
      }
    }
  }

  lemma AlreadyExtended(safe: string, x: string)
    requires PlainExtension(x) && EndsWith(Lower(safe), "." + x)
    ensures !EndsWith(safe, ".")
  {
    assert Lower(safe)[|safe| - 1] == ("." + x)[|x|] == x[|x| - 1];
    assert x[|x| - 1] in x && safe[|safe| - 1] != '.';
    assert safe[|safe| - 1..] == [safe[|safe| - 1]];
  }

  /** The stored path may not contain "..". Appending the export extension breaks
      that exactly when the safe name ends in a dot, as in "Notes." exported to
      "Notes..txt". */
  lemma EffectiveNameSafeIff(name: string, exportExtension: Option<string>)
    requires exportExtension.Some? ==> PlainExtension(exportExtension.value)
    ensures Safe(EffectiveName(name, exportExtension)) <==>
            (exportExtension.Some? ==> !EndsWith(Sanitize(name), "."))
    ensures forall c | c in EffectiveName(name, exportExtension) :: !Forbidden(c)
  {
    SanitizeSafeAndIdempotent(name);
    if exportExtension.Some? {
      ExtendedSafeIff(Sanitize(name), exportExtension.value);
      if EndsWith(Lower(Sanitize(name)), "." + exportExtension.value) {
        AlreadyExtended(Sanitize(name), exportExtension.value);
      }
    }
  }

  // ------------------------------------------------------------------ paths

  /** The prefix a chain of folder names leads to. */
  function Prefix(names: seq<string>): string {
    if names == [] then "" else Prefix(names[..|names| - 1]) + names[|names| - 1] + "/"
  }

  function Slash(s: string): nat
    requires '/' in s
    ensures Slash(s) < |s| && s[Slash(s)] == '/' && '/' !in s[..Slash(s)]
  {
    if s[0] == '/' then 0 else
      var k := Slash(s[1..]);
      assert s[..k + 1] == [s[0]] + s[1..][..k];
      k + 1
  }

  function Split(path: string): seq<string>
    decreases |path|
  {
    if '/' !in path then [path] else [path[..Slash(path)]] + Split(path[Slash(path) + 1..])
  }

  lemma {:induction false} PrefixFront(names: seq<string>)
    requires names != []
    ensures Prefix(names) == names[0] + "/" + Prefix(names[1..])
  {
    if |names| > 1 {
      PrefixFront(names[..|names| - 1]);
      assert names[..|names| - 1][1..] == names[1..][..|names| - 2];
    }
  }

  lemma {:induction false} SlashAfter(head: string, tail: string)
    requires '/' !in head
    ensures '/' in head + "/" + tail && Slash(head + "/" + tail) == |head|
  {
    var s := head + "/" + tail;
    assert s[|head|] == '/';
    if head != "" {
      assert s[0] == head[0] && head[0] in head;
      SlashAfter(head[1..], tail);
      assert s[1..] == head[1..] + "/" + tail;
    }
  }

  lemma SplitFirst(head: string, tail: string)
    requires '/' !in head
    ensures Split(head + "/" + tail) == [head] + Split(tail)
  {
    var s := head + "/" + tail;
    SlashAfter(head, tail);
    assert s[..|head|] == head && s[|head| + 1..] == tail;
  }

  /** Segments with a slash between them. */
  function Join(parts: seq<string>): string
    requires parts != []
  {
    if |parts| == 1 then parts[0] else parts[0] + "/" + Join(parts[1..])
  }

  lemma {:induction false} SplitJoin(parts: seq<string>)
    requires parts != [] && forall m | m in parts :: '/' !in m
    ensures Split(Join(parts)) == parts
    decreases |parts|
  {
    assert parts[0] in parts;
    if |parts| > 1 {
      SplitJoin(parts[1..]);
      SplitFirst(parts[0], Join(parts[1..]));
    }
  }

  lemma PathFront(names: seq<string>, file: string)
    requires names != []
    ensures Prefix(names) + file == names[0] + "/" + (Prefix(names[1..]) + file)
  {
    PrefixFront(names);
    Associate(names[0] + "/", Prefix(names[1..]), file);
  }

  lemma Associate(a: string, b: string, c: string)
    ensures (a + b) + c == a + (b + c)
  {
  }

  lemma {:induction false} PathIsJoin(names: seq<string>, file: string)
    ensures Prefix(names) + file == Join(names + [file])
    decreases |names|
  {
    if names == [] {
      assert Prefix(names) + file == file;
    } else {
      PathFront(names, file);
      PathIsJoin(names[1..], file);
      assert (names + [file])[1..] == names[1..] + [file];
    }
  }

  /** A path splits on '/' back into the names of its folders and its file. */
  lemma PathSplitsBack(names: seq<string>, file: string)
    requires '/' !in file && forall m | m in names :: '/' !in m
    ensures Split(Prefix(names) + file) == names + [file]
  {
    PathIsJoin(names, file);
    SplitJoin(names + [file]);
  }

  /** A path of safe names is relative and free of "..". */
  lemma {:induction false} PathSafe(names: seq<string>, file: string)
    requires Safe(file) && forall m | m in names :: Safe(m)
    ensures var path := Prefix(names) + file;
            !HasDotDot(path) && path != "" && path[0] != '/'
    decreases names
  {
    if names == [] {
      assert Prefix(names) + file == file;
      assert file[0] in file;
    } else {
      PrefixFront(names);
      PathSafe(names[1..], file);
      var path, tail, head := Prefix(names) + file, Prefix(names[1..]) + file, names[0];
      assert path == head + "/" + tail;
      assert Safe(head) && head[0] in head && !Forbidden(head[0]);
      forall i | 0 <= i < |path| - 1 ensures !(path[i] == '.' && path[i + 1] == '.') {
        if i > |head| { assert path[i] == tail[i - |head| - 1] && path[i + 1] == tail[i - |head|]; }
      }
    }
  }
}
