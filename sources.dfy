/**
 * The `th_sources` option: a comma-separated list of theHarvester source
 * names, parsed once in `setup` and joined back with ',' for every query.
 * Python's `str.strip()`, `str.split(',')` and `','.join` are modelled here
 * as functions on strings.
 */
module Sources {

  /** The characters for which Python's `str.isspace()` holds; `str.strip()`
      with no argument removes exactly these from both ends. */
  predicate IsSpace(c: char) {
    || ('\t' <= c <= '\r')
    || ('\U{1C}' <= c <= '\U{1F}')
    || c == ' '
    || c == '\U{85}'
    || c == '\U{A0}'
    || c == '\U{1680}'
    || ('\U{2000}' <= c <= '\U{200A}')
    || c == '\U{2028}'
    || c == '\U{2029}'
    || c == '\U{202F}'
    || c == '\U{205F}'
    || c == '\U{3000}'
  }

  /** Neither end of `s` is whitespace. */
  predicate IsStripped(s: string) {
    s == [] || (!IsSpace(s[0]) && !IsSpace(s[|s| - 1]))
  }

  /** A well-formed entry of the parsed source list. */
  predicate IsSourceName(s: string) {
    s != [] && IsStripped(s) && ',' !in s
  }

  /** `s.lstrip()`: the longest suffix of `s` that does not start with whitespace. */
  function TrimLeft(s: string): string
  {
    if |s| > 0 && IsSpace(s[0]) then TrimLeft(s[1..]) else s
  }

  /** `s.rstrip()`: the longest prefix of `s` that does not end with whitespace. */
  function TrimRight(s: string): string
  {
    if |s| > 0 && IsSpace(s[|s| - 1]) then TrimRight(s[..|s| - 1]) else s
  }

  /** `s.strip()`. */
  function Strip(s: string): string
  {
    TrimRight(TrimLeft(s))
  }

  /** `s.split(',')`: the maximal comma-free pieces of `s`, left to right;
      there is always at least one piece (`"".split(',') == [""]`). */
  function Split(s: string): (r: seq<string>)
    ensures |r| >= 1
    decreases |s|
  {
    if s == [] then [""]
    else
      var rest := Split(s[1..]);
      if s[0] == ',' then [""] + rest
      else [[s[0]] + rest[0]] + rest[1..]
  }

  /** `','.join(parts)`. */
  function Join(parts: seq<string>): string
    decreases |parts|
  {
    if parts == [] then ""
    else if |parts| == 1 then parts[0]
    else parts[0] + "," + Join(parts[1..])
  }

  /** `', '.join(parts)`: the way a person writes the option by hand. */
  function JoinSpaced(parts: seq<string>): string {
    if parts == [] then ""
    else if |parts| == 1 then parts[0]
    else parts[0] + ", " + JoinSpaced(parts[1..])
  }

  /** Strip every token and drop those that become empty, keeping the order. */
  function Clean(tokens: seq<string>): seq<string>
    decreases |tokens|
  {
    if tokens == [] then []
    else
      var source := Strip(tokens[0]);
      var rest := Clean(tokens[1..]);
      if |source| > 0 then [source] + rest else rest
  }

  /** The source list `setup` derives from the `th_sources` option. */
  function ParseSources(option: string): seq<string>
  {
    Clean(Split(Strip(option)))
  }

  // ---- Properties of the primitives ----

  /** `lstrip()` removes only whitespace. */
  lemma {:induction false} TrimLeftRemovesSpace(s: string, i: nat)
    requires i < |s| - |TrimLeft(s)|
    ensures IsSpace(s[i])
    decreases |s|
  {
    if i > 0 {
      TrimLeftRemovesSpace(s[1..], i - 1);
    }
  }

  /** `rstrip()` removes only whitespace. */
  lemma {:induction false} TrimRightRemovesSpace(s: string, i: nat)
    requires |TrimRight(s)| <= i < |s|
    ensures IsSpace(s[i])
    decreases |s|
  {
    if i < |s| - 1 {
      TrimRightRemovesSpace(s[..|s| - 1], i);
    }
  }

  /** `lstrip()` leaves a suffix that is empty or starts with a non-space. */
  lemma {:induction false} TrimLeftSuffix(s: string)
    ensures var r := TrimLeft(s);
      |r| <= |s| && r == s[|s| - |r|..] && (r == [] || !IsSpace(r[0]))
    decreases |s|
  {
    if |s| > 0 && IsSpace(s[0]) {
      TrimLeftSuffix(s[1..]);
    }
  }

  /** `rstrip()` leaves a prefix that is empty or ends with a non-space. */
  lemma {:induction false} TrimRightPrefix(s: string)
    ensures var r := TrimRight(s);
      |r| <= |s| && r == s[..|r|] && (r == [] || !IsSpace(r[|r| - 1]))
    decreases |s|
  {
    if |s| > 0 && IsSpace(s[|s| - 1]) {
      TrimRightPrefix(s[..|s| - 1]);
    }
  }

  /** `strip()` gives a stripped, contiguous piece of its argument, starting
      where `lstrip()` stops. */
  lemma StripIsInfix(s: string)
    ensures var l, r := |s| - |TrimLeft(s)|, Strip(s);
      IsStripped(r) && 0 <= l && l + |r| <= |s| && r == s[l..l + |r|]
  {
    var t := TrimLeft(s);
    TrimLeftSuffix(s);
    TrimRightPrefix(t);
    assert Strip(s) == t[..|Strip(s)|];
  }

  /** What `strip()` removes is whitespace only. */
  lemma StripRemovesOnlySpace(s: string, j: nat)
    requires j < |s|
    requires var l := |s| - |TrimLeft(s)|; j < l || l + |Strip(s)| <= j
    ensures IsSpace(s[j])
  {
    var t := TrimLeft(s);
    var l := |s| - |t|;
    TrimLeftSuffix(s);
    if j < l {
      TrimLeftRemovesSpace(s, j);
    } else {
      TrimRightRemovesSpace(t, j - l);
    }
  }

  /** No piece of a split contains the separator. */
  lemma {:induction false} SplitCommaFree(s: string, i: nat)
    requires i < |Split(s)|
    ensures ',' !in Split(s)[i]
    decreases |s|
  {
    if s != [] {
      var rest := Split(s[1..]);
      if s[0] == ',' {
        if i > 0 { SplitCommaFree(s[1..], i - 1); }
      } else if i == 0 {
        SplitCommaFree(s[1..], 0);
      } else {
        SplitCommaFree(s[1..], i);
      }
    }
  }

  /** Cleaned tokens are non-empty and stripped, and comma-free when the tokens were. */
  lemma {:induction false} CleanWellFormed(tokens: seq<string>, i: nat)
    requires i < |Clean(tokens)|
    ensures Clean(tokens)[i] != [] && IsStripped(Clean(tokens)[i])
    ensures (forall j :: 0 <= j < |tokens| ==> ',' !in tokens[j]) ==> ',' !in Clean(tokens)[i]
    decreases |tokens|
  {
    var source := Strip(tokens[0]);
    var rest := Clean(tokens[1..]);
    if |source| > 0 {
      if i == 0 {
        StripIsInfix(tokens[0]);
        if ',' in source {
          var l := |tokens[0]| - |TrimLeft(tokens[0])|;
          var k :| 0 <= k < |source| && source[k] == ',';
          assert tokens[0][l + k] == ',';
        }
      } else {
        CleanWellFormed(tokens[1..], i - 1);
      }
    } else {
      CleanWellFormed(tokens[1..], i);
    }
  }

  /** Stripping an already stripped string changes nothing. */
  lemma StripStripped(s: string)
    requires IsStripped(s)
    ensures Strip(s) == s
  {
    TrimLeftSuffix(s);
  }

  /** One step of `Split`, for a string given as its first character and the rest. */
  lemma SplitCons(x: char, s: string)
    ensures var S := Split(s);
      Split([x] + s) == if x == ',' then [""] + S else [[x] + S[0]] + S[1..]
  {
    assert ([x] + s)[0] == x && ([x] + s)[1..] == s;
  }

  /** A string without commas splits into itself alone. */
  lemma {:induction false} SplitNoComma(s: string)
    requires ',' !in s
    ensures Split(s) == [s]
    decreases |s|
  {
    if s != [] {
      assert ',' !in s[1..];
      SplitNoComma(s[1..]);
      SplitCons(s[0], s[1..]);
      assert [s[0]] + s[1..] == s;
    }
  }

  /** Splitting a concatenation glues the last piece of `a` to the first piece of `b`. */
  lemma {:induction false} SplitConcat(a: string, b: string)
    ensures var A, B := Split(a), Split(b);
      Split(a + b) == A[..|A| - 1] + [A[|A| - 1] + B[0]] + B[1..]
    decreases |a|
  {
    if a == [] {
      var B := Split(b);
      assert a + b == b;
      assert Split(a) == [""];
      assert "" + B[0] == B[0];
      assert B == [B[0]] + B[1..];
    } else {
      var x, a' := a[0], a[1..];
      assert a == [x] + a';
      assert a + b == [x] + (a' + b);
      SplitConcat(a', b);
      SplitCons(x, a');
      SplitCons(x, a' + b);
      SplitConcatStep(x, Split(a'), Split(b), Split(a' + b));
    }
  }

  /** The sequence reasoning behind one step of `SplitConcat`. */
  lemma SplitConcatStep(x: char, A: seq<string>, B: seq<string>, S: seq<string>)
    requires |A| >= 1 && |B| >= 1
    requires S == A[..|A| - 1] + [A[|A| - 1] + B[0]] + B[1..]
    ensures var A1 := if x == ',' then [""] + A else [[x] + A[0]] + A[1..];
      (if x == ',' then [""] + S else [[x] + S[0]] + S[1..])
        == A1[..|A1| - 1] + [A1[|A1| - 1] + B[0]] + B[1..]
  {
    if x != ',' {
      var A1 := [[x] + A[0]] + A[1..];
      if |A| == 1 {
        assert S[0] == A[0] + B[0] && S[1..] == B[1..];
        assert [x] + S[0] == ([x] + A[0]) + B[0];
        assert A1 == [[x] + A[0]];
      } else {
        assert S[0] == A[0];
        assert S[1..] == A[1..|A| - 1] + [A[|A| - 1] + B[0]] + B[1..];
        assert A1[..|A1| - 1] == [[x] + A[0]] + A[1..|A| - 1];
        assert A1[|A1| - 1] == A[|A| - 1];
      }
    } else {
      var A1 := [""] + A;
      assert A1[..|A1| - 1] == [""] + A[..|A| - 1];
      assert A1[|A1| - 1] == A[|A| - 1];
    }
  }

  /** Appending a character other than ',' extends the last piece. */
  lemma SplitSnoc(s: string, c: char)
    requires c != ','
    ensures var S := Split(s);
      Split(s + [c]) == S[..|S| - 1] + [S[|S| - 1] + [c]]
  {
    var S, B := Split(s), Split([c]);
    SplitConcat(s, [c]);
    SplitNoComma([c]);
    assert B[0] == [c] && B[1..] == [];
    var R := S[..|S| - 1] + [S[|S| - 1] + [c]];
    assert Split(s + [c]) == R + [];
  }

  /** A comma separates the pieces of its two sides. */
  lemma SplitComma(a: string, b: string)
    ensures Split(a + "," + b) == Split(a) + Split(b)
  {
    SplitConcat(a, "," + b);
    SplitCons(',', b);
    assert "," + b == [','] + b;
    assert a + "," + b == a + ("," + b);
    var A, B := Split(a), Split(b);
    assert Split("," + b) == [""] + B;
    assert A[|A| - 1] + "" == A[|A| - 1];
    assert A == A[..|A| - 1] + [A[|A| - 1]];
  }

  /** Joining the pieces of `s` with ',' gives `s` back. */
  lemma {:induction false} JoinSplit(s: string)
    ensures Join(Split(s)) == s
    decreases |s|
  {
    if s != [] {
      var rest := Split(s[1..]);
      JoinSplit(s[1..]);
      if s[0] == ',' {
        assert Split(s) == [""] + rest;
        assert Join(Split(s)) == "" + "," + Join(rest);
      } else if |rest| == 1 {
        assert Join(Split(s)) == [s[0]] + rest[0];
      } else {
        assert Join(rest) == rest[0] + "," + Join(rest[1..]);
        assert Join(Split(s)) == [s[0]] + rest[0] + "," + Join(rest[1..]);
      }
    }
  }

  /** Cleaning distributes over concatenation, which is why it keeps the order. */
  lemma {:induction false} CleanAppend(a: seq<string>, b: seq<string>)
    ensures Clean(a + b) == Clean(a) + Clean(b)
    decreases |a|
  {
    if a != [] {
      assert (a + b)[0] == a[0] && (a + b)[1..] == a[1..] + b;
      CleanAppend(a[1..], b);
    } else {
      assert a + b == b;
    }
  }

  /** Cleaning a single token. */
  lemma CleanSingle(t: string)
    ensures Clean([t]) == if |Strip(t)| > 0 then [Strip(t)] else []
  {
    assert [t][1..] == [];
  }

  /** Cleaning one more token of a list. */
  lemma CleanPrefix(tokens: seq<string>, i: nat)
    requires i < |tokens|
    ensures var source := Strip(tokens[i]);
      Clean(tokens[..i + 1]) == Clean(tokens[..i]) + (if |source| > 0 then [source] else [])
  {
    assert tokens[..i + 1] == tokens[..i] + [tokens[i]];
    CleanAppend(tokens[..i], [tokens[i]]);
    assert [tokens[i]][1..] == [];
  }

  /** Left-trimming a concatenation only reaches into `u` once `t` is all whitespace. */
  lemma {:induction false} TrimLeftConcat(t: string, u: string)
    ensures TrimLeft(t + u) == if TrimLeft(t) == [] then TrimLeft(u) else TrimLeft(t) + u
    decreases |t|
  {
    if t == [] {
      assert t + u == u;
    } else if IsSpace(t[0]) {
      assert (t + u)[1..] == t[1..] + u;
      TrimLeftConcat(t[1..], u);
    }
  }

  /** Trailing whitespace does not change `strip()`. */
  lemma StripSnocSpace(t: string, c: char)
    requires IsSpace(c)
    ensures Strip(t + [c]) == Strip(t)
  {
    TrimLeftConcat(t, [c]);
    assert [c][1..] == [];
    var l := TrimLeft(t);
    if l != [] {
      assert (l + [c])[..|l + [c]| - 1] == l;
    }
  }

  /** Leading whitespace on the option changes no parsed token. */
  lemma CleanSplitConsSpace(c: char, s: string)
    requires IsSpace(c)
    ensures Clean(Split([c] + s)) == Clean(Split(s))
  {
    var S := Split(s);
    assert ([c] + s)[1..] == s;
    assert Split([c] + s) == [[c] + S[0]] + S[1..];
    assert ([c] + S[0])[1..] == S[0];
    assert Strip([c] + S[0]) == Strip(S[0]);
    assert S == [S[0]] + S[1..];
  }

  /** Trailing whitespace on the option changes no parsed token. */
  lemma CleanSplitSnocSpace(s: string, c: char)
    requires IsSpace(c)
    ensures Clean(Split(s + [c])) == Clean(Split(s))
  {
    var S := Split(s);
    var n := |S|;
    var init, last := S[..n - 1], S[n - 1];
    SplitSnoc(s, c);
    CleanSnocSpace(init, last, c);
    assert init + [last] == S;
  }

  /** Trailing whitespace on the last token changes nothing once tokens are cleaned. */
  lemma CleanSnocSpace(init: seq<string>, last: string, c: char)
    requires IsSpace(c)
    ensures Clean(init + [last + [c]]) == Clean(init + [last])
  {
    CleanAppend(init, [last + [c]]);
    CleanAppend(init, [last]);
    CleanSingle(last + [c]);
    CleanSingle(last);
    StripSnocSpace(last, c);
  }

  lemma {:induction false} CleanSplitTrimLeft(s: string)
    ensures Clean(Split(TrimLeft(s))) == Clean(Split(s))
    decreases |s|
  {
    if |s| > 0 && IsSpace(s[0]) {
      CleanSplitTrimLeft(s[1..]);
      CleanSplitConsSpace(s[0], s[1..]);
      assert [s[0]] + s[1..] == s;
    }
  }

  lemma {:induction false} CleanSplitTrimRight(s: string)
    ensures Clean(Split(TrimRight(s))) == Clean(Split(s))
    decreases |s|
  {
    if |s| > 0 && IsSpace(s[|s| - 1]) {
      var p, c := s[..|s| - 1], s[|s| - 1];
      assert s == p + [c];
      calc {
        Clean(Split(TrimRight(s)));
        Clean(Split(TrimRight(p)));
        { CleanSplitTrimRight(p); }
        Clean(Split(p));
        { CleanSplitSnocSpace(p, c); }
        Clean(Split(p + [c]));
      }
    }
  }

  /** The `strip()` applied to the whole option before splitting is redundant:
      every token is stripped again afterwards. */
  lemma OuterStripRedundant(option: string)
    ensures ParseSources(option) == Clean(Split(option))
  {
    CleanSplitTrimLeft(option);
    CleanSplitTrimRight(TrimLeft(option));
  }

  // ---- Properties of the parsed source list ----

  /** Every parsed source is a non-empty, stripped name without a comma. */
  lemma ParseSourcesWellFormed(option: string)
    ensures forall s :: s in ParseSources(option) ==> IsSourceName(s)
  {
    var tokens := Split(Strip(option));
    forall j | 0 <= j < |tokens| ensures ',' !in tokens[j] {
      SplitCommaFree(Strip(option), j);
    }
    forall i | 0 <= i < |ParseSources(option)| ensures IsSourceName(ParseSources(option)[i]) {
      CleanWellFormed(tokens, i);
    }
  }

  /** Sources named before a comma come first, in their order, followed by
      those named after it. */
  lemma ParseSourcesConcat(a: string, b: string)
    ensures ParseSources(a + "," + b) == ParseSources(a) + ParseSources(b)
  {
    OuterStripRedundant(a + "," + b);
    OuterStripRedundant(a);
    OuterStripRedundant(b);
    SplitComma(a, b);
    CleanAppend(Split(a), Split(b));
  }

  /** A source name on its own parses to itself. */
  lemma ParseSourceName(s: string)
    requires IsSourceName(s)
    ensures ParseSources(s) == [s]
  {
    StripStripped(s);
    SplitNoComma(s);
    assert Clean([s]) == [s] + Clean([]);
  }

  /** A blank at the front of the option changes no parsed source. */
  lemma ParseLeadingSpace(s: string)
    ensures ParseSources(" " + s) == ParseSources(s)
  {
    OuterStripRedundant(" " + s);
    CleanSplitConsSpace(' ', s);
    OuterStripRedundant(s);
  }

  /** Parsing the ','-joined query parameter gives the source list back. */
  lemma {:induction false} ParseJoin(sources: seq<string>)
    requires forall s :: s in sources ==> IsSourceName(s)
    ensures ParseSources(Join(sources)) == sources
    decreases |sources|
  {
    if sources == [] {
      calc {
        ParseSources(Join(sources));
        Clean(Split(Strip("")));
        { StripStripped(""); }
        Clean(Split(""));
        { SplitNoComma(""); }
        Clean([""]);
        { CleanSingle(""); }
        sources;
      }
    } else if |sources| == 1 {
      ParseSourceName(sources[0]);
    } else {
      var first, rest := sources[0], sources[1..];
      calc {
        ParseSources(Join(sources));
        ParseSources(first + "," + Join(rest));
        { ParseSourcesConcat(first, Join(rest)); }
        ParseSources(first) + ParseSources(Join(rest));
        { ParseSourceName(first); ParseJoin(rest); }
        [first] + rest;
        sources;
      }
    }
  }

  /** Sources written by hand with a blank after each comma parse back to
      the list, as the default option of the plug-in is written. */
  lemma {:induction false} ParseJoinSpaced(sources: seq<string>)
    requires forall s :: s in sources ==> IsSourceName(s)
    ensures ParseSources(JoinSpaced(sources)) == sources
    decreases |sources|
  {
    if sources == [] {
      ParseJoin(sources);
    } else if |sources| == 1 {
      ParseSourceName(sources[0]);
    } else {
      var first, rest := sources[0], sources[1..];
      calc {
        ParseSources(JoinSpaced(sources));
        { assert JoinSpaced(sources) == first + "," + (" " + JoinSpaced(rest)); }
        ParseSources(first + "," + (" " + JoinSpaced(rest)));
        { ParseSourcesConcat(first, " " + JoinSpaced(rest)); }
        ParseSources(first) + ParseSources(" " + JoinSpaced(rest));
        { ParseLeadingSpace(JoinSpaced(rest)); }
        ParseSources(first) + ParseSources(JoinSpaced(rest));
        { ParseSourceName(first); ParseJoinSpaced(rest); }
        [first] + rest;
        sources;
      }
    }
  }
}
