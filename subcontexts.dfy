/**
  Minimal-name compression and the naming of child contexts
  (quickapp/app_utils/subcontexts.py).

  A list of similar identifiers such as `test_learn1_fast_10`,
  `test_learn1_slow_10`, `test_learn2_faster_10` is reduced to the parts
  that tell them apart, by stripping the longest common prefix and postfix
  that fall on `_` boundaries. The short names, with `-` and `_` removed,
  become the names of one child context per value; the pair, triplet,
  quartet and quintuplet variants nest these children in row-major order.
*/
module Subcontexts {
  import opened Wrappers
  import opened PyStr
  import opened PyValues
  import opened CompmakeContexts

  /** `separators[0]`: the only character that splits identifiers into tokens.
      The default separators are `['_', '-']`, but the helper that would turn
      `-` into `_` returns its argument before its loop, so `-` is never a
      boundary. */
  const Sep: char := '_'

  datatype Decomposition = Decomposition(prefix: string, minimal: seq<string>, postfix: string)

  datatype NamingError =
    | EmptyIterator                                            // ValueError('Empty iterator: ...')
    | NoObjects                                                // max() of an empty sequence
    | RoundTripFailed(objects: seq<string>, rebuilt: seq<string>)  // the failing `assert objects == objects2`

  // ===========================================================================
  // good_context_name

  /** `id.replace('-', '').replace('_', '')` */
  function GoodContextName(id: string): (r: string)
    ensures '-' !in r && '_' !in r
  {
    RemoveChar(RemoveChar(id, '-'), '_')
  }

  predicate IsSeparator(c: char) {
    c == '-' || c == '_'
  }

  /** Reference definition: `id` with exactly its `-` and `_` characters deleted,
      every other character kept in order. */
  function WithoutSeparators(id: string): string {
    if |id| == 0 then ""
    else (if IsSeparator(id[0]) then "" else [id[0]]) + WithoutSeparators(id[1..])
  }

  lemma {:induction false} GoodContextNameDeletesSeparators(id: string)
    ensures GoodContextName(id) == WithoutSeparators(id)
  {
    if |id| > 0 {
      GoodContextNameDeletesSeparators(id[1..]);
      if id[0] != '-' {
        assert RemoveChar(id, '-') == [id[0]] + RemoveChar(id[1..], '-');
      }
    }
  }

  lemma {:induction false} RemoveAbsentChar(s: string, c: char)
    requires c !in s
    ensures RemoveChar(s, c) == s
  {
    if |s| > 0 {
      assert c !in s[1..];
      RemoveAbsentChar(s[1..], c);
    }
  }

  /** A good context name is its own good context name. */
  lemma GoodContextNameIdempotent(id: string)
    ensures GoodContextName(GoodContextName(id)) == GoodContextName(id)
  {
    var g := GoodContextName(id);
    RemoveAbsentChar(g, '-');
    RemoveAbsentChar(g, '_');
  }

  // ===========================================================================
  // Affix tests over a whole list (the `all(...)` generators of the source)

  /** `all(x.startswith(p) for x in objects)` */
  predicate AllStartWith(objects: seq<string>, p: string) {
    forall k :: 0 <= k < |objects| ==> StartsWith(objects[k], p)
  }

  /** `all(x.endswith(p) for x in objects)` */
  predicate AllEndWith(objects: seq<string>, p: string) {
    forall k :: 0 <= k < |objects| ==> EndsWith(objects[k], p)
  }

  // ===========================================================================
  // minimal_names: the character-level version

  /** The longest common prefix of two strings. */
  function CommonPrefix2(a: string, b: string): (p: string)
    ensures StartsWith(a, p) && StartsWith(b, p)
    ensures |p| == |a| || |p| == |b| || a[|p|] != b[|p|]
  {
    if |a| == 0 || |b| == 0 || a[0] != b[0] then ""
    else [a[0]] + CommonPrefix2(a[1..], b[1..])
  }

  /** Every common prefix of `a` and `b` is a prefix of `CommonPrefix2(a, b)`. */
  lemma CommonPrefix2Maximal(a: string, b: string, q: string)
    requires StartsWith(a, q) && StartsWith(b, q)
    ensures StartsWith(CommonPrefix2(a, b), q)
  {
    var p := CommonPrefix2(a, b);
    PrefixOfPrefix(a, p, q);
  }

  /** Two prefixes of one string: the shorter is a prefix of the longer. */
  lemma PrefixOfPrefix(s: string, p: string, q: string)
    requires StartsWith(s, p) && StartsWith(s, q) && |q| <= |p|
    ensures StartsWith(p, q)
  {
    assert p[..|q|] == s[..|p|][..|q|];
  }

  /** `os.path.commonprefix(objects)`: the longest string every object starts
      with (`''` for no objects). The library compares only the least and the
      greatest object, which gives the same string. */
  function CommonPrefix(objects: seq<string>): (p: string)
    ensures AllStartWith(objects, p)
    ensures |objects| > 0 ==> forall q :: AllStartWith(objects, q) ==> StartsWith(p, q)
  {
    if |objects| == 0 then ""
    else if |objects| == 1 then
      PrefixesOfOne(objects);
      objects[0]
    else
      var rest := CommonPrefix(objects[1..]);
      CommonPrefixStep(objects, rest);
      CommonPrefix2(objects[0], rest)
  }

  lemma PrefixesOfOne(objects: seq<string>)
    requires |objects| == 1
    ensures forall q :: AllStartWith(objects, q) ==> StartsWith(objects[0], q)
  {
  }

  /** One step of the fold: the common prefix of the first object and of the
      rest's common prefix is the common prefix of all. */
  lemma CommonPrefixStep(objects: seq<string>, rest: string)
    requires |objects| >= 2
    requires AllStartWith(objects[1..], rest)
    requires forall q :: AllStartWith(objects[1..], q) ==> StartsWith(rest, q)
    ensures AllStartWith(objects, CommonPrefix2(objects[0], rest))
    ensures forall q :: AllStartWith(objects, q) ==> StartsWith(CommonPrefix2(objects[0], rest), q)
  {
    var p := CommonPrefix2(objects[0], rest);
    forall k | 1 <= k < |objects|
      ensures StartsWith(objects[k], p)
    {
      assert StartsWith(objects[1..][k - 1], rest);
      StartsWithTransitive(objects[k], rest, p);
    }
    forall q | AllStartWith(objects, q)
      ensures StartsWith(p, q)
    {
      assert AllStartWith(objects[1..], q) by {
        forall k | 0 <= k < |objects| - 1
          ensures StartsWith(objects[1..][k], q)
        {
          assert objects[1..][k] == objects[k + 1];
        }
      }
      assert StartsWith(objects[0], q);
      CommonPrefix2Maximal(objects[0], rest, q);
    }
  }

  /** The longest common postfix of two strings. */
  function CommonPostfix2(a: string, b: string): (p: string)
    ensures EndsWith(a, p) && EndsWith(b, p)
    ensures |p| == |a| || |p| == |b| || a[|a| - |p| - 1] != b[|b| - |p| - 1]
  {
    if |a| == 0 || |b| == 0 || a[|a| - 1] != b[|b| - 1] then ""
    else
      var a', b' := a[..|a| - 1], b[..|b| - 1];
      var r := CommonPostfix2(a', b');
      EndsWithSnoc(a, r);
      EndsWithSnoc(b, r);
      r + [a[|a| - 1]]
  }

  lemma CommonPostfix2Maximal(a: string, b: string, q: string)
    requires EndsWith(a, q) && EndsWith(b, q)
    ensures EndsWith(CommonPostfix2(a, b), q)
  {
    var p := CommonPostfix2(a, b);
    PostfixOfPostfix(a, p, q);
  }

  lemma PostfixOfPostfix(s: string, p: string, q: string)
    requires EndsWith(s, p) && EndsWith(s, q) && |q| <= |p|
    ensures EndsWith(p, q)
  {
    assert p[|p| - |q|..] == s[|s| - |p|..][|p| - |q|..];
  }

  /** `os.path.commonprefix([o[::-1] for o in objects])[::-1]`: the longest
      string every object ends with. */
  function CommonPostfix(objects: seq<string>): (p: string)
    ensures AllEndWith(objects, p)
    ensures |objects| > 0 ==> forall q :: AllEndWith(objects, q) ==> EndsWith(p, q)
  {
    if |objects| == 0 then ""
    else if |objects| == 1 then
      PostfixesOfOne(objects);
      objects[0]
    else
      var rest := CommonPostfix(objects[1..]);
      CommonPostfixStep(objects, rest);
      CommonPostfix2(objects[0], rest)
  }

  lemma PostfixesOfOne(objects: seq<string>)
    requires |objects| == 1
    ensures forall q :: AllEndWith(objects, q) ==> EndsWith(objects[0], q)
  {
  }

  lemma CommonPostfixStep(objects: seq<string>, rest: string)
    requires |objects| >= 2
    requires AllEndWith(objects[1..], rest)
    requires forall q :: AllEndWith(objects[1..], q) ==> EndsWith(rest, q)
    ensures AllEndWith(objects, CommonPostfix2(objects[0], rest))
    ensures forall q :: AllEndWith(objects, q) ==> EndsWith(CommonPostfix2(objects[0], rest), q)
  {
    var p := CommonPostfix2(objects[0], rest);
    forall k | 1 <= k < |objects|
      ensures EndsWith(objects[k], p)
    {
      assert EndsWith(objects[1..][k - 1], rest);
      EndsWithTransitive(objects[k], rest, p);
    }
    forall q | AllEndWith(objects, q)
      ensures EndsWith(p, q)
    {
      assert AllEndWith(objects[1..], q) by {
        forall k | 0 <= k < |objects| - 1
          ensures EndsWith(objects[1..][k], q)
        {
          assert objects[1..][k] == objects[k + 1];
        }
      }
      assert EndsWith(objects[0], q);
      CommonPostfix2Maximal(objects[0], rest, q);
    }
  }

  /** `CommonPrefix` is determined by any two objects that differ right after
      a common prefix `q` (or one object that ends there): then it is `q`. */
  lemma CommonPrefixIs(objects: seq<string>, q: string, i: nat, j: nat)
    requires i < |objects| && j < |objects| && AllStartWith(objects, q)
    requires |objects[i]| == |q| || (|q| < |objects[i]| && |q| < |objects[j]| && objects[i][|q|] != objects[j][|q|])
    ensures CommonPrefix(objects) == q
  {
    var p := CommonPrefix(objects);
    assert StartsWith(objects[i], p) && StartsWith(objects[j], p);
    assert StartsWith(p, q);
  }

  /** The same for `CommonPostfix`, looking right before a common postfix `q`. */
  lemma CommonPostfixIs(objects: seq<string>, q: string, i: nat, j: nat)
    requires i < |objects| && j < |objects| && AllEndWith(objects, q)
    requires |objects[i]| == |q|
          || (|q| < |objects[i]| && |q| < |objects[j]|
              && objects[i][|objects[i]| - |q| - 1] != objects[j][|objects[j]| - |q| - 1])
    ensures CommonPostfix(objects) == q
  {
    var p := CommonPostfix(objects);
    assert EndsWith(objects[i], p) && EndsWith(objects[j], p);
    assert EndsWith(p, q);
  }

  /** `minimal_names` AS WRITTEN: the names are cut with `o[n1:-n2]`, which is
      the empty string whenever the common postfix is empty (`-0 == 0`). */
  function MinimalNamesAsWritten(objects: seq<string>): Result<Decomposition, NamingError> {
    if |objects| == 1 then Ok(Decomposition("", objects, ""))
    else Check(objects, CommonPrefix(objects), CutAsWritten(objects, |CommonPrefix(objects)|, |CommonPostfix(objects)|), CommonPostfix(objects))
  }

  /** `minimal_names` as evidently intended: the names are cut with
      `o[n1:len(o) - n2]`, as `minimal_names_at_boundaries` does. */
  function MinimalNames(objects: seq<string>): Result<Decomposition, NamingError> {
    if |objects| == 1 then Ok(Decomposition("", objects, ""))
    else Check(objects, CommonPrefix(objects), Strip(objects, |CommonPrefix(objects)|, |CommonPostfix(objects)|), CommonPostfix(objects))
  }

  /** The final `assert objects == objects2` of both versions. */
  function Check(objects: seq<string>, prefix: string, minimal: seq<string>, postfix: string): (r: Result<Decomposition, NamingError>)
    ensures r.Ok? <==> Rebuild(prefix, minimal, postfix) == objects
    ensures r.Ok? ==> r.value == Decomposition(prefix, minimal, postfix)
  {
    var rebuilt := Rebuild(prefix, minimal, postfix);
    if rebuilt == objects then Ok(Decomposition(prefix, minimal, postfix))
    else Err(RoundTripFailed(objects, rebuilt))
  }

  /** `[o[n1:-n2] for o in objects]` */
  function CutAsWritten(objects: seq<string>, n1: nat, n2: nat): (r: seq<string>)
    ensures |r| == |objects|
  {
    seq(|objects|, k requires 0 <= k < |objects| => Slice(objects[k], n1, -(n2 as int)))
  }

  /** `[o[n1:len(o) - n2] for o in objects]` */
  function Strip(objects: seq<string>, n1: nat, n2: nat): (r: seq<string>)
    ensures |r| == |objects|
  {
    seq(|objects|, k requires 0 <= k < |objects| => Slice(objects[k], n1, |objects[k]| - n2))
  }

  /** `[prefix + m + postfix for m in minimal]` */
  function Rebuild(prefix: string, minimal: seq<string>, postfix: string): (r: seq<string>)
    ensures |r| == |minimal|
  {
    seq(|minimal|, k requires 0 <= k < |minimal| => prefix + minimal[k] + postfix)
  }

  /** Whenever every object starts with `prefix` and ends with `postfix`, cutting
      both off and gluing them back gives the objects again exactly when no
      object is shorter than the two together. */
  lemma StripRebuild(objects: seq<string>, prefix: string, postfix: string)
    requires AllStartWith(objects, prefix) && AllEndWith(objects, postfix)
    ensures Rebuild(prefix, Strip(objects, |prefix|, |postfix|), postfix) == objects
        <==> forall k :: 0 <= k < |objects| ==> |prefix| + |postfix| <= |objects[k]|
  {
    var rebuilt := Rebuild(prefix, Strip(objects, |prefix|, |postfix|), postfix);
    if forall k :: 0 <= k < |objects| ==> |prefix| + |postfix| <= |objects[k]| {
      forall k | 0 <= k < |objects|
        ensures rebuilt[k] == objects[k]
      {
        var o := objects[k];
        assert StartsWith(o, prefix) && EndsWith(o, postfix);
        assert Slice(o, |prefix|, |o| - |postfix|) == o[|prefix|..|o| - |postfix|];
        assert o == o[..|prefix|] + o[|prefix|..|o| - |postfix|] + o[|o| - |postfix|..];
      }
    } else {
      var k :| 0 <= k < |objects| && |prefix| + |postfix| > |objects[k]|;
      assert |rebuilt[k]| > |objects[k]|;
    }
  }

  /** Round trip of the corrected `minimal_names`: it fails only when the
      common prefix and postfix overlap in some object, and otherwise every
      object is its prefix, its minimal name and its postfix. */
  lemma MinimalNamesRoundTrip(objects: seq<string>)
    requires |objects| >= 2
    ensures MinimalNames(objects).Ok?
        <==> forall k :: 0 <= k < |objects| ==> |CommonPrefix(objects)| + |CommonPostfix(objects)| <= |objects[k]|
    ensures MinimalNames(objects).Ok? ==>
              var d := MinimalNames(objects).value;
              |d.minimal| == |objects| &&
              forall k :: 0 <= k < |objects| ==> d.prefix + d.minimal[k] + d.postfix == objects[k]
  {
    StripRebuild(objects, CommonPrefix(objects), CommonPostfix(objects));
  }

  /** The two versions agree whenever the common postfix is not empty. */
  lemma AsWrittenAgreesWithNonEmptyPostfix(objects: seq<string>)
    requires CommonPostfix(objects) != ""
    ensures MinimalNamesAsWritten(objects) == MinimalNames(objects)
  {
    var n1, n2 := |CommonPrefix(objects)|, |CommonPostfix(objects)|;
    var cut, strip := CutAsWritten(objects, n1, n2), Strip(objects, n1, n2);
    forall k | 0 <= k < |objects|
      ensures cut[k] == strip[k]
    {
      assert EndsWith(objects[k], CommonPostfix(objects));
      assert Bound(-n2, |objects[k]|) == |objects[k]| - n2;
    }
    assert cut == strip;
  }

  /** The defect of the code as written: with an empty common postfix every
      name is cut to `''`, so the round-trip assertion fails as soon as one
      object is longer than the common prefix. */
  lemma EmptyPostfixFailsAsWritten(objects: seq<string>, k: nat)
    requires |objects| >= 2 && k < |objects|
    requires CommonPostfix(objects) == ""
    requires objects[k] != CommonPrefix(objects)
    ensures MinimalNamesAsWritten(objects).Err?
  {
    var prefix := CommonPrefix(objects);
    var cut := CutAsWritten(objects, |prefix|, 0);
    assert cut[k] == Slice(objects[k], |prefix|, 0) == "";
    var rebuilt := Rebuild(prefix, cut, "");
    assert rebuilt[k] == prefix + "" + "" == prefix;
  }

  /** A concrete input that shows it: `['ab', 'ac']`, whose corrected names are `b` and `c`. */
  lemma AsWrittenFailsOnDistinctEndings()
    ensures MinimalNamesAsWritten(["ab", "ac"]).Err?
    ensures MinimalNames(["ab", "ac"]) == Ok(Decomposition("a", ["b", "c"], ""))
  {
    var objects := ["ab", "ac"];
    CommonPrefixIs(objects, "a", 0, 1);
    CommonPostfixIs(objects, "", 0, 1);
    EmptyPostfixFailsAsWritten(objects, 0);
    var strip := Strip(objects, 1, 0);
    assert strip[0] == "b" && strip[1] == "c";
    assert strip == ["b", "c"];
    assert "a" + "b" + "" == "ab" && "a" + "c" + "" == "ac";
    assert Rebuild("a", strip, "") == objects;
  }

  /** The docstring example of `minimal_names`, which both versions get right. */
  lemma MinimalNamesDocstringExample()
    ensures MinimalNames(["test_learn_fast_10", "test_learn_slow_10", "test_learn_faster_10"])
         == Ok(Decomposition("test_learn_", ["fast", "slow", "faster"], "_10"))
    ensures MinimalNamesAsWritten(["test_learn_fast_10", "test_learn_slow_10", "test_learn_faster_10"])
         == Ok(Decomposition("test_learn_", ["fast", "slow", "faster"], "_10"))
  {
    var objects := ["test_learn_fast_10", "test_learn_slow_10", "test_learn_faster_10"];
    DocstringAffixes(objects);
    DocstringStrip(objects);
    AsWrittenAgreesWithNonEmptyPostfix(objects);
  }

  lemma DocstringAffixes(objects: seq<string>)
    requires objects == ["test_learn_fast_10", "test_learn_slow_10", "test_learn_faster_10"]
    ensures CommonPrefix(objects) == "test_learn_" && CommonPostfix(objects) == "_10"
  {
    DocstringStarts(objects);
    CommonPrefixIs(objects, "test_learn_", 0, 1);
    DocstringEnds(objects);
    CommonPostfixIs(objects, "_10", 0, 1);
  }

  lemma DocstringStarts(objects: seq<string>)
    requires objects == ["test_learn_fast_10", "test_learn_slow_10", "test_learn_faster_10"]
    ensures AllStartWith(objects, "test_learn_") && objects[0][11] != objects[1][11]
    ensures 11 < |objects[0]| && 11 < |objects[1]|
  {
  }

  lemma DocstringEnds(objects: seq<string>)
    requires objects == ["test_learn_fast_10", "test_learn_slow_10", "test_learn_faster_10"]
    ensures AllEndWith(objects, "_10") && objects[0][|objects[0]| - 4] != objects[1][|objects[1]| - 4]
    ensures 3 < |objects[0]| && 3 < |objects[1]|
  {
  }

  lemma DocstringStrip(objects: seq<string>)
    requires objects == ["test_learn_fast_10", "test_learn_slow_10", "test_learn_faster_10"]
    ensures Strip(objects, 11, 3) == ["fast", "slow", "faster"]
    ensures Rebuild("test_learn_", ["fast", "slow", "faster"], "_10") == objects
  {
    var names := ["fast", "slow", "faster"];
    forall k | 0 <= k < 3
      ensures objects[k] == "test_learn_" + names[k] + "_10"
    {
    }
    StripAffixes(objects, "test_learn_", names, "_10");
  }

  // ===========================================================================
  // minimal_names_at_boundaries

  /** `x.split(s0)`. The source first passes every object through a `convert`
      that returns its argument unchanged, so the objects are split as given. */
  function Tokens(x: string): (t: seq<string>)
    ensures |t| >= 1
  {
    Split(x, Sep)
  }

  /** `"".join(t + s0 for t in toks)` */
  function JoinAfter(toks: seq<string>): string {
    if |toks| == 0 then "" else toks[0] + [Sep] + JoinAfter(toks[1..])
  }

  /** `"".join(s0 + t for t in toks)` */
  function JoinBefore(toks: seq<string>): string {
    if |toks| == 0 then "" else [Sep] + toks[0] + JoinBefore(toks[1..])
  }

  lemma {:induction false} JoinAfterAppend(a: seq<string>, b: seq<string>)
    ensures JoinAfter(a + b) == JoinAfter(a) + JoinAfter(b)
  {
    if |a| == 0 {
      assert a + b == b;
    } else {
      assert (a + b)[1..] == a[1..] + b;
      JoinAfterAppend(a[1..], b);
    }
  }

  lemma {:induction false} JoinBeforeAppend(a: seq<string>, b: seq<string>)
    ensures JoinBefore(a + b) == JoinBefore(a) + JoinBefore(b)
  {
    if |a| == 0 {
      assert a + b == b;
    } else {
      assert (a + b)[1..] == a[1..] + b;
      JoinBeforeAppend(a[1..], b);
    }
  }

  /** `max(map(len, astokens))`, the number of candidates tried on each side. */
  function MaxTokenCount(objects: seq<string>): (n: nat)
    requires |objects| > 0
    ensures forall k :: 0 <= k < |objects| ==> |Tokens(objects[k])| <= n
    ensures exists k :: 0 <= k < |objects| && |Tokens(objects[k])| == n
  {
    if |objects| == 1 then |Tokens(objects[0])|
    else
      var m := MaxTokenCount(objects[1..]);
      assert forall k :: 1 <= k < |objects| ==> objects[k] == objects[1..][k - 1];
      if |Tokens(objects[0])| >= m then |Tokens(objects[0])|
      else
        var k :| 0 <= k < |objects| - 1 && |Tokens(objects[1..][k])| == m;
        assert objects[k + 1] == objects[1..][k];
        m
  }

  /** The `i`-th prefix the loop tries: the first `i` tokens of the first
      object, each followed by the separator (`t0[:i]` is clamped). */
  function PrefixCandidate(t0: seq<string>, i: nat): string {
    JoinAfter(Take(t0, i))
  }

  /** The `i`-th postfix the loop tries: the last `i` tokens of the first
      object, each preceded by the separator. For `i > len(t0)` the start
      `len(t0) - i` is negative and counts from the end, as in Python. */
  function PostfixCandidate(t0: seq<string>, i: nat): string {
    JoinBefore(Drop(t0, |t0| - i))
  }

  /** The index at which the prefix loop, having accepted candidate `i`, stops:
      every candidate from `i` to it is a common prefix, and the next one (if
      the loop would try it) is not. */
  function PrefixRun(objects: seq<string>, t0: seq<string>, n: nat, i: nat): (r: nat)
    requires i < n && AllStartWith(objects, PrefixCandidate(t0, i))
    ensures i <= r < n
    ensures forall j :: i <= j <= r ==> AllStartWith(objects, PrefixCandidate(t0, j))
    ensures r + 1 < n ==> !AllStartWith(objects, PrefixCandidate(t0, r + 1))
    decreases n - i
  {
    if i + 1 < n && AllStartWith(objects, PrefixCandidate(t0, i + 1)) then PrefixRun(objects, t0, n, i + 1)
    else i
  }

  /** The same for the postfix loop. */
  function PostfixRun(objects: seq<string>, t0: seq<string>, n: nat, i: nat): (r: nat)
    requires i < n && AllEndWith(objects, PostfixCandidate(t0, i))
    ensures i <= r < n
    ensures forall j :: i <= j <= r ==> AllEndWith(objects, PostfixCandidate(t0, j))
    ensures r + 1 < n ==> !AllEndWith(objects, PostfixCandidate(t0, r + 1))
    decreases n - i
  {
    if i + 1 < n && AllEndWith(objects, PostfixCandidate(t0, i + 1)) then
      var r := PostfixRun(objects, t0, n, i + 1);
      PostfixRunExtends(objects, t0, i, r);
      r
    else i
  }

  /** A run of common postfixes from `i + 1` grows back to `i` when candidate
      `i` is common too. */
  lemma PostfixRunExtends(objects: seq<string>, t0: seq<string>, i: nat, r: nat)
    requires AllEndWith(objects, PostfixCandidate(t0, i))
    requires forall j :: i + 1 <= j <= r ==> AllEndWith(objects, PostfixCandidate(t0, j))
    ensures forall j :: i <= j <= r ==> AllEndWith(objects, PostfixCandidate(t0, j))
  {
  }

  /** Candidate 0 is the empty string on both sides, which every object has. */
  lemma EmptyCandidates(objects: seq<string>, t0: seq<string>)
    ensures EmptyCandidatesHold(objects, t0)
  {
    assert Take(t0, 0) == [];
    assert Drop(t0, |t0|) == [];
  }

  predicate EmptyCandidatesHold(objects: seq<string>, t0: seq<string>) {
    PrefixCandidate(t0, 0) == "" && AllStartWith(objects, "") &&
    PostfixCandidate(t0, 0) == "" && AllEndWith(objects, "")
  }

  /** The common prefix found at `_` boundaries. */
  function BoundaryPrefix(objects: seq<string>): string
    requires |objects| > 0
  {
    var t0, n := Tokens(objects[0]), MaxTokenCount(objects);
    EmptyCandidates(objects, t0);
    PrefixCandidate(t0, PrefixRun(objects, t0, n, 0))
  }

  /** The common postfix found at `_` boundaries. */
  function BoundaryPostfix(objects: seq<string>): string
    requires |objects| > 0
  {
    var t0, n := Tokens(objects[0]), MaxTokenCount(objects);
    EmptyCandidates(objects, t0);
    PostfixCandidate(t0, PostfixRun(objects, t0, n, 0))
  }

  /** What `minimal_names_at_boundaries` returns or raises. */
  function BoundaryDecomposition(objects: seq<string>): Result<Decomposition, NamingError> {
    if |objects| == 1 then Ok(Decomposition("", objects, ""))
    else if |objects| == 0 then Err(NoObjects)
    else
      var prefix, postfix := BoundaryPrefix(objects), BoundaryPostfix(objects);
      Check(objects, prefix, Strip(objects, |prefix|, |postfix|), postfix)
  }

  /** `minimal_names_at_boundaries(objects)`: grow the prefix one token at a
      time while every object starts with it, then the postfix likewise, cut
      both off every object and check that gluing them back gives the objects. */
  method MinimalNamesAtBoundaries(objects: seq<string>) returns (r: Result<Decomposition, NamingError>)
    ensures r == BoundaryDecomposition(objects)
  {
    if |objects| == 1 {
      return Ok(Decomposition("", objects, ""));
    }
    if |objects| == 0 {
      return Err(NoObjects);
    }
    var prefix := GrowPrefix(objects);
    var postfix := GrowPostfix(objects);
    // minimal = [o[n1:len(o) - n2] for o in objectsu], then the round-trip assertion
    r := Check(objects, prefix, Strip(objects, |prefix|, |postfix|), postfix);
  }

  /** The prefix loop of `minimal_names_at_boundaries`: try the candidates
      `0, 1, ...` below the largest token count, keep the last one every
      object starts with, and stop at the first one that fails. */
  method GrowPrefix(objects: seq<string>) returns (prefix: string)
    requires |objects| > 0
    ensures prefix == BoundaryPrefix(objects)
  {
    var t0 := Tokens(objects[0]);
    var ntokens := MaxTokenCount(objects);
    EmptyCandidates(objects, t0);
    var found: Option<string> := None;
    var i := 0;
    while i < ntokens
      invariant i <= ntokens
      invariant i == 0 ==> found == None
      invariant i > 0 ==> AllStartWith(objects, PrefixCandidate(t0, i - 1))
      invariant i > 0 ==> found == Some(PrefixCandidate(t0, i - 1))
      invariant i > 0 ==> PrefixRun(objects, t0, ntokens, 0) == PrefixRun(objects, t0, ntokens, i - 1)
    {
      var p := PrefixCandidate(t0, i);
      if AllStartWith(objects, p) {
        found := Some(p);
      } else {
        break;
      }
      i := i + 1;
    }
    assert found.Some?;  // `assert prefix is not None`
    prefix := found.value;
  }

  /** The postfix loop of `minimal_names_at_boundaries`, the mirror image of
      `GrowPrefix`. */
  method GrowPostfix(objects: seq<string>) returns (postfix: string)
    requires |objects| > 0
    ensures postfix == BoundaryPostfix(objects)
  {
    var t0 := Tokens(objects[0]);
    var ntokens := MaxTokenCount(objects);
    EmptyCandidates(objects, t0);
    var found: Option<string> := None;
    var i := 0;
    while i < ntokens
      invariant i <= ntokens
      invariant i == 0 ==> found == None
      invariant i > 0 ==> AllEndWith(objects, PostfixCandidate(t0, i - 1))
      invariant i > 0 ==> found == Some(PostfixCandidate(t0, i - 1))
      invariant i > 0 ==> PostfixRun(objects, t0, ntokens, 0) == PostfixRun(objects, t0, ntokens, i - 1)
    {
      var x := PostfixCandidate(t0, i);
      if AllEndWith(objects, x) {
        found := Some(x);
      } else {
        break;
      }
      i := i + 1;
    }
    assert found.Some?;  // `assert postfix is not None`
    postfix := found.value;
  }

  /** Every object starts with the boundary prefix and ends with the boundary
      postfix; a non-empty prefix ends with `_` and a non-empty postfix starts
      with `_`, so both fall on token boundaries. */
  lemma BoundaryAffixes(objects: seq<string>)
    requires |objects| > 0
    ensures AllStartWith(objects, BoundaryPrefix(objects))
    ensures AllEndWith(objects, BoundaryPostfix(objects))
    ensures BoundaryPrefix(objects) == "" || EndsWith(BoundaryPrefix(objects), [Sep])
    ensures BoundaryPostfix(objects) == "" || StartsWith(BoundaryPostfix(objects), [Sep])
  {
    var t0 := Tokens(objects[0]);
    var n := MaxTokenCount(objects);
    EmptyCandidates(objects, t0);
    PrefixCandidateShape(t0, PrefixRun(objects, t0, n, 0));
  }

  /** A prefix candidate is empty or ends with the separator. */
  lemma PrefixCandidateShape(t0: seq<string>, i: nat)
    ensures PrefixCandidate(t0, i) == "" || EndsWith(PrefixCandidate(t0, i), [Sep])
  {
    var toks := Take(t0, i);
    if |toks| > 0 {
      JoinAfterAppend(toks[..|toks| - 1], [toks[|toks| - 1]]);
      assert toks[..|toks| - 1] + [toks[|toks| - 1]] == toks;
    }
  }

  /** The boundary version fails exactly when the prefix and the postfix
      overlap in some object; otherwise each object is its prefix, its minimal
      name and its postfix. */
  lemma BoundaryRoundTrip(objects: seq<string>)
    requires |objects| >= 2
    ensures BoundaryDecomposition(objects).Ok?
        <==> forall k :: 0 <= k < |objects| ==> |BoundaryPrefix(objects)| + |BoundaryPostfix(objects)| <= |objects[k]|
    ensures BoundaryDecomposition(objects).Ok? ==>
              var d := BoundaryDecomposition(objects).value;
              |d.minimal| == |objects| &&
              forall k :: 0 <= k < |objects| ==> d.prefix + d.minimal[k] + d.postfix == objects[k]
  {
    BoundaryAffixes(objects);
    StripRebuild(objects, BoundaryPrefix(objects), BoundaryPostfix(objects));
  }

  /** Each prefix candidate is a prefix of every later one. */
  lemma PrefixCandidatesNested(t0: seq<string>, i: nat, j: nat)
    requires i <= j
    ensures StartsWith(PrefixCandidate(t0, j), PrefixCandidate(t0, i))
  {
    var a, b := Take(t0, i), Take(t0, j);
    assert b == a + b[|a|..];
    JoinAfterAppend(a, b[|a|..]);
  }

  /** Each postfix candidate up to `len(t0)` is a postfix of every later one. */
  lemma PostfixCandidatesNested(t0: seq<string>, i: nat, j: nat)
    requires i <= j <= |t0|
    ensures EndsWith(PostfixCandidate(t0, j), PostfixCandidate(t0, i))
  {
    var a, b := Drop(t0, |t0| - i), Drop(t0, |t0| - j);
    assert b == b[..|b| - |a|] + a;
    JoinBeforeAppend(b[..|b| - |a|], a);
  }

  /** The boundary prefix is the longest candidate the loop could try that
      every object starts with. */
  lemma BoundaryPrefixLongest(objects: seq<string>, j: nat)
    requires |objects| > 0
    requires |BoundaryPrefix(objects)| < |PrefixCandidate(Tokens(objects[0]), j)|
    requires j < MaxTokenCount(objects)
    ensures !AllStartWith(objects, PrefixCandidate(Tokens(objects[0]), j))
  {
    var t0, n := Tokens(objects[0]), MaxTokenCount(objects);
    EmptyCandidates(objects, t0);
    var r := PrefixRun(objects, t0, n, 0);
    if j <= r {
      PrefixCandidatesNested(t0, j, r);
    } else if AllStartWith(objects, PrefixCandidate(t0, j)) {
      PrefixCandidatesNested(t0, r + 1, j);
      forall k | 0 <= k < |objects|
        ensures StartsWith(objects[k], PrefixCandidate(t0, r + 1))
      {
        StartsWithTransitive(objects[k], PrefixCandidate(t0, j), PrefixCandidate(t0, r + 1));
      }
    }
  }

  lemma {:induction false} JoinBeforeIsJoin(toks: seq<string>)
    requires |toks| >= 1
    ensures JoinBefore(toks) == [Sep] + Join([Sep], toks)
  {
    if |toks| > 1 {
      JoinBeforeIsJoin(toks[1..]);
    }
  }

  /** The postfix candidate made of all the first object's tokens is `_`
      followed by that object, which it does not end with: the postfix loop
      always stops before it. */
  lemma PostfixRunShort(objects: seq<string>)
    requires |objects| > 0
    ensures EmptyCandidatesHold(objects, Tokens(objects[0]))
    ensures PostfixRun(objects, Tokens(objects[0]), MaxTokenCount(objects), 0) < |Tokens(objects[0])|
  {
    var t0 := Tokens(objects[0]);
    EmptyCandidates(objects, t0);
    assert Drop(t0, |t0| - |t0|) == t0;
    JoinBeforeIsJoin(t0);
    JoinSplit(objects[0], Sep);
    assert PostfixCandidate(t0, |t0|) == [Sep] + objects[0];
    assert !EndsWith(objects[0], PostfixCandidate(t0, |t0|));
  }

  /** The boundary postfix is the longest candidate of at most `len(t0)` tokens
      that the loop could try and that every object ends with. */
  lemma BoundaryPostfixLongest(objects: seq<string>, j: nat)
    requires |objects| > 0
    requires |BoundaryPostfix(objects)| < |PostfixCandidate(Tokens(objects[0]), j)|
    requires j < MaxTokenCount(objects) && j <= |Tokens(objects[0])|
    ensures !AllEndWith(objects, PostfixCandidate(Tokens(objects[0]), j))
  {
    var t0, n := Tokens(objects[0]), MaxTokenCount(objects);
    EmptyCandidates(objects, t0);
    var r := PostfixRun(objects, t0, n, 0);
    PostfixRunShort(objects);
    if j <= r {
      PostfixCandidatesNested(t0, j, r);
    } else if AllEndWith(objects, PostfixCandidate(t0, j)) {
      PostfixCandidatesNested(t0, r + 1, j);
      forall k | 0 <= k < |objects|
        ensures EndsWith(objects[k], PostfixCandidate(t0, r + 1))
      {
        EndsWithTransitive(objects[k], PostfixCandidate(t0, j), PostfixCandidate(t0, r + 1));
      }
    }
  }

  // ---------------------------------------------------------------------------
  // Examples

  lemma TokensOf(x: string, parts: seq<string>)
    requires |parts| >= 1 && x == Join([Sep], parts)
    requires forall k :: 0 <= k < |parts| ==> Sep !in parts[k]
    ensures Tokens(x) == parts
  {
    SplitJoin(parts, Sep);
  }

  /** Each prefix candidate adds the next token and a separator. */
  lemma PrefixCandidateNext(t0: seq<string>, i: nat)
    requires i < |t0|
    ensures PrefixCandidate(t0, i + 1) == PrefixCandidate(t0, i) + t0[i] + [Sep]
  {
    assert Take(t0, i + 1) == Take(t0, i) + [t0[i]];
    JoinAfterAppend(Take(t0, i), [t0[i]]);
    assert [t0[i]][1..] == [];
  }

  /** Each postfix candidate adds a separator and the token before. */
  lemma PostfixCandidateNext(t0: seq<string>, i: nat)
    requires i < |t0|
    ensures PostfixCandidate(t0, i + 1) == [Sep] + t0[|t0| - 1 - i] + PostfixCandidate(t0, i)
  {
    assert Drop(t0, |t0| - (i + 1)) == [t0[|t0| - 1 - i]] + Drop(t0, |t0| - i);
    JoinBeforeAppend([t0[|t0| - 1 - i]], Drop(t0, |t0| - i));
    assert [t0[|t0| - 1 - i]][1..] == [];
  }

  /** The docstring example of `minimal_names_at_boundaries` (whose docstring
      misprints the second name as `learn2_slow`). */
  lemma BoundaryDocstringExample(objects: seq<string>)
    requires objects == ["test_learn1_fast_10", "test_learn1_slow_10", "test_learn2_faster_10"]
    ensures BoundaryDecomposition(objects)
         == Ok(Decomposition("test_", ["learn1_fast", "learn1_slow", "learn2_faster"], "_10"))
  {
    var t0 := ["test", "learn1", "fast", "10"];
    BoundaryDocstringTokens();
    var n := MaxTokenCount(objects);
    assert n >= |Tokens(objects[0])| == 4;
    BoundaryDocstringPrefix(objects, t0, n);
    BoundaryDocstringPostfix(objects, t0, n);
    assert BoundaryPrefix(objects) == "test_" && BoundaryPostfix(objects) == "_10";
    BoundaryDocstringNames(objects);
  }

  lemma BoundaryDocstringTokens()
    ensures Tokens("test_learn1_fast_10") == ["test", "learn1", "fast", "10"]
    ensures Tokens("test_learn1_slow_10") == ["test", "learn1", "slow", "10"]
    ensures Tokens("test_learn2_faster_10") == ["test", "learn2", "faster", "10"]
  {
    DocstringTokens0();
    DocstringTokens1();
    DocstringTokens2();
  }

  lemma DocstringTokens0()
    ensures Tokens("test_learn1_fast_10") == ["test", "learn1", "fast", "10"]
  {
    DocstringTokensOf("test_learn1_fast_10", "test", "learn1", "fast", "10");
  }

  lemma DocstringTokens1()
    ensures Tokens("test_learn1_slow_10") == ["test", "learn1", "slow", "10"]
  {
    DocstringTokensOf("test_learn1_slow_10", "test", "learn1", "slow", "10");
  }

  lemma DocstringTokens2()
    ensures Tokens("test_learn2_faster_10") == ["test", "learn2", "faster", "10"]
  {
    DocstringTokensOf("test_learn2_faster_10", "test", "learn2", "faster", "10");
  }

  lemma DocstringTokensOf(x: string, a: string, b: string, c: string, d: string)
    requires x == a + "_" + b + "_" + c + "_" + d
    requires Sep !in a && Sep !in b && Sep !in c && Sep !in d
    ensures Tokens(x) == [a, b, c, d]
  {
    var parts := [a, b, c, d];
    assert parts[1..][1..][1..] == [d];
    assert parts[1..][1..] == [c, d];
    assert parts[1..] == [b, c, d];
    assert Join([Sep], [d]) == d;
    assert Join([Sep], [c, d]) == c + [Sep] + d;
    assert Join([Sep], [b, c, d]) == b + [Sep] + c + [Sep] + d;
    assert Join([Sep], parts) == a + [Sep] + b + [Sep] + c + [Sep] + d;
    TokensOf(x, parts);
  }

  lemma BoundaryDocstringPrefix(objects: seq<string>, t0: seq<string>, n: nat)
    requires objects == ["test_learn1_fast_10", "test_learn1_slow_10", "test_learn2_faster_10"]
    requires t0 == ["test", "learn1", "fast", "10"] && n >= 3
    ensures PrefixCandidate(t0, 0) == "" && AllStartWith(objects, "")
    ensures PrefixRun(objects, t0, n, 0) == 1 && PrefixCandidate(t0, 1) == "test_"
  {
    EmptyCandidates(objects, t0);
    PrefixCandidateNext(t0, 0);
    PrefixCandidateNext(t0, 1);
    assert PrefixCandidate(t0, 1) == "test_";
    assert AllStartWith(objects, "test_");
    assert PrefixCandidate(t0, 2) == "test_learn1_";
    assert objects[2][..12] == "test_learn2_";
    assert !AllStartWith(objects, PrefixCandidate(t0, 2));
  }

  lemma BoundaryDocstringPostfix(objects: seq<string>, t0: seq<string>, n: nat)
    requires objects == ["test_learn1_fast_10", "test_learn1_slow_10", "test_learn2_faster_10"]
    requires t0 == ["test", "learn1", "fast", "10"] && n >= 3
    ensures PostfixCandidate(t0, 0) == "" && AllEndWith(objects, "")
    ensures PostfixRun(objects, t0, n, 0) == 1 && PostfixCandidate(t0, 1) == "_10"
  {
    EmptyCandidates(objects, t0);
    DocstringPostfixCandidates(t0);
    DocstringPostfixes(objects);
    PostfixRunStopsAtOne(objects, t0, n);
  }

  lemma DocstringPostfixCandidates(t0: seq<string>)
    requires t0 == ["test", "learn1", "fast", "10"]
    ensures PostfixCandidate(t0, 1) == "_10" && PostfixCandidate(t0, 2) == "_fast_10"
  {
    PostfixCandidateNext(t0, 0);
    PostfixCandidateNext(t0, 1);
    assert Drop(t0, |t0|) == [];
  }

  lemma DocstringPostfixes(objects: seq<string>)
    requires objects == ["test_learn1_fast_10", "test_learn1_slow_10", "test_learn2_faster_10"]
    ensures AllEndWith(objects, "_10") && !AllEndWith(objects, "_fast_10")
  {
    assert objects[1][|objects[1]| - 8..] == "_slow_10";
  }

  /** The postfix loop accepts candidates 0 and 1 and stops at 2. */
  lemma PostfixRunStopsAtOne(objects: seq<string>, t0: seq<string>, n: nat)
    requires n >= 3
    requires AllEndWith(objects, PostfixCandidate(t0, 0)) && AllEndWith(objects, PostfixCandidate(t0, 1))
    requires !AllEndWith(objects, PostfixCandidate(t0, 2))
    ensures PostfixRun(objects, t0, n, 0) == 1
  {
    assert PostfixRun(objects, t0, n, 1) == 1;
  }

  lemma BoundaryDocstringNames(objects: seq<string>)
    requires objects == ["test_learn1_fast_10", "test_learn1_slow_10", "test_learn2_faster_10"]
    ensures Check(objects, "test_", Strip(objects, 5, 3), "_10")
         == Ok(Decomposition("test_", ["learn1_fast", "learn1_slow", "learn2_faster"], "_10"))
  {
    var names := ["learn1_fast", "learn1_slow", "learn2_faster"];
    forall k | 0 <= k < 3
      ensures objects[k] == "test_" + names[k] + "_10"
    {
    }
    StripAffixes(objects, "test_", names, "_10");
  }

  /** Objects built as `prefix + name + postfix` are cut back to their names. */
  lemma StripAffixes(objects: seq<string>, prefix: string, names: seq<string>, postfix: string)
    requires |objects| == |names|
    requires forall k :: 0 <= k < |objects| ==> objects[k] == prefix + names[k] + postfix
    ensures Strip(objects, |prefix|, |postfix|) == names
    ensures Rebuild(prefix, names, postfix) == objects
  {
    forall k | 0 <= k < |objects|
      ensures Strip(objects, |prefix|, |postfix|)[k] == names[k]
    {
      var o := objects[k];
      assert o[|prefix|..|o| - |postfix|] == names[k];
    }
  }

  /** Two equal objects of two tokens: the prefix `a_` and the postfix `_b`
      overlap, and the round-trip assertion fails. */
  lemma BoundaryFailsOnOverlap(objects: seq<string>)
    requires objects == ["a_b", "a_b"]
    ensures BoundaryDecomposition(objects).Err?
  {
    OverlapAffixes(objects, ["a", "b"]);
    BoundaryRoundTrip(objects);
  }

  lemma OverlapAffixes(objects: seq<string>, t0: seq<string>)
    requires objects == ["a_b", "a_b"] && t0 == ["a", "b"]
    ensures BoundaryPrefix(objects) == "a_" && BoundaryPostfix(objects) == "_b"
  {
    OverlapTokens(t0);
    assert MaxTokenCount(objects) == 2;
    EmptyCandidates(objects, t0);
    PrefixCandidateNext(t0, 0);
    PostfixCandidateNext(t0, 0);
  }

  lemma OverlapTokens(t0: seq<string>)
    requires t0 == ["a", "b"]
    ensures Tokens("a_b") == t0
  {
    assert t0[1..] == ["b"];
    assert Join([Sep], t0) == "a" + [Sep] + "b";
    TokensOf("a_b", t0);
  }

  /** `a_b_c` and `a_c` share the prefix `a_` and the postfix `_c`, which
      together are longer than `a_c`: the round-trip assertion fails. */
  lemma BoundaryFailsOnShortObject(objects: seq<string>)
    requires objects == ["a_b_c", "a_c"]
    ensures BoundaryDecomposition(objects).Err?
  {
    ShortObjectAffixes(objects, ["a", "b", "c"]);
    BoundaryRoundTrip(objects);
  }

  lemma ShortObjectAffixes(objects: seq<string>, t0: seq<string>)
    requires objects == ["a_b_c", "a_c"] && t0 == ["a", "b", "c"]
    ensures BoundaryPrefix(objects) == "a_" && BoundaryPostfix(objects) == "_c"
  {
    ShortObjectTokens(t0);
    var n := MaxTokenCount(objects);
    assert n == 3;
    EmptyCandidates(objects, t0);
    PrefixCandidateNext(t0, 0);
    PrefixCandidateNext(t0, 1);
    assert PrefixCandidate(t0, 1) == "a_";
    assert AllStartWith(objects, "a_");
    assert !AllStartWith(objects, PrefixCandidate(t0, 2));
    assert PrefixRun(objects, t0, n, 0) == 1;
    PostfixCandidateNext(t0, 0);
    PostfixCandidateNext(t0, 1);
    assert PostfixCandidate(t0, 1) == "_c";
    assert AllEndWith(objects, "_c");
    assert !AllEndWith(objects, PostfixCandidate(t0, 2));
    assert PostfixRun(objects, t0, n, 0) == 1;
  }

  lemma ShortObjectTokens(t0: seq<string>)
    requires t0 == ["a", "b", "c"]
    ensures Tokens("a_b_c") == t0 && Tokens("a_c") == ["a", "c"]
  {
    assert t0[1..] == ["b", "c"] && t0[1..][1..] == ["c"];
    assert Join([Sep], ["c"]) == "c";
    assert Join([Sep], ["b", "c"]) == "b" + [Sep] + "c";
    assert Join([Sep], t0) == "a" + [Sep] + "b" + [Sep] + "c";
    TokensOf("a_b_c", t0);
    var t1 := ["a", "c"];
    assert t1[1..] == ["c"];
    assert Join([Sep], t1) == "a" + [Sep] + "c";
    TokensOf("a_c", t1);
  }

  /** `-` is not a boundary: `x-a` and `x-b` share no boundary prefix, and
      the names are the objects themselves. */
  lemma DashIsNotABoundary()
    ensures BoundaryDecomposition(["x-a", "x-b"]) == Ok(Decomposition("", ["x-a", "x-b"], ""))
  {
    NoSeparatorPair("x-a", "x-b");
  }

  // ===========================================================================
  // iterate_context_names and its nested variants

  /** `map(str, it1)` */
  function Strs(items: seq<PyValue>): (r: seq<string>)
    ensures |r| == |items|
    ensures forall k :: 0 <= k < |items| ==> r[k] == Str(items[k])
  {
    seq(|items|, k requires 0 <= k < |items| => Str(items[k]))
  }

  /** `map(good_context_name, names)` */
  function GoodContextNames(names: seq<string>): (r: seq<string>)
    ensures |r| == |names|
    ensures forall k :: 0 <= k < |names| ==> r[k] == GoodContextName(names[k])
  {
    seq(|names|, k requires 0 <= k < |names| => GoodContextName(names[k]))
  }

  /** The names `iterate_context_names` gives the children for its items, or
      what it raises. */
  function ContextNames(items: seq<PyValue>): (r: Result<seq<string>, NamingError>)
    ensures r == Err(EmptyIterator) <==> |items| == 0
    ensures r.Ok? <==> |items| > 0 && BoundaryDecomposition(Strs(items)).Ok?
    ensures r.Ok? ==> |r.value| == |items|
    ensures r.Ok? ==> forall k :: 0 <= k < |items| ==> '-' !in r.value[k] && '_' !in r.value[k]
  {
    if |items| == 0 then Err(EmptyIterator)
    else
      match BoundaryDecomposition(Strs(items))
      case Err(e) => Err(e)
      case Ok(d) => Ok(GoodContextNames(d.minimal))
  }

  /** A single item is named by its own string with the separators deleted. */
  lemma ContextNamesSingle(x: PyValue)
    ensures ContextNames([x]) == Ok([GoodContextName(Str(x))])
  {
    assert Strs([x]) == [Str(x)];
    assert GoodContextNames([Str(x)]) == [GoodContextName(Str(x))];
  }

  /** `c` is the child `context.child(name)` makes with the default
      arguments (apart from its dependency list). */
  ghost predicate NamedChild(c: CompmakeContext, context: CompmakeContext, name: string) {
    Inherits(c, context) && c.parent == context &&
    c.jobPrefix == ChildJobPrefix(context.jobPrefix, name, None) &&
    c.outputDir == ChildOutputDir(context.outputDir, name, None)
  }

  /** `iterate_context_names(context, it1)`: one child of `context` per item,
      in the order of the items, named by the item's minimal name. */
  method IterateContextNames(context: CompmakeContext, items: seq<PyValue>)
    returns (r: Result<seq<(CompmakeContext, PyValue)>, NamingError>)
    requires context.Valid()
    ensures r.Err? <==> ContextNames(items).Err?
    ensures r.Err? ==> r.error == ContextNames(items).error
    ensures r.Ok? ==> |r.value| == |items|
    ensures r.Ok? ==> forall k :: 0 <= k < |items| ==>
              r.value[k].1 == items[k] && fresh(r.value[k].0) &&
              NamedChild(r.value[k].0, context, ContextNames(items).value[k]) &&
              r.value[k].0.extraDep == context.extraDep
  {
    if |items| == 0 {
      return Err(EmptyIterator);
    }
    var d := MinimalNamesAtBoundaries(Strs(items));
    if d.Err? {
      return Err(d.error);
    }
    var names := GoodContextNames(d.value.minimal);
    assert ContextNames(items) == Ok(names);
    var children := NamedChildren(context, names, items);
    return Ok(children);
  }

  /** The loop of `iterate_context_names`: `context.child(name)` for each
      name, paired with its item. */
  method NamedChildren(context: CompmakeContext, names: seq<string>, items: seq<PyValue>)
    returns (children: seq<(CompmakeContext, PyValue)>)
    requires context.Valid() && |names| == |items|
    ensures |children| == |items|
    ensures forall k :: 0 <= k < |items| ==>
              children[k].1 == items[k] && fresh(children[k].0) && NamedChild(children[k].0, context, names[k]) &&
              children[k].0.extraDep == context.extraDep
  {
    children := [];
    for k := 0 to |items|
      invariant |children| == k
      invariant forall j :: 0 <= j < k ==>
                  children[j].1 == items[j] && fresh(children[j].0) && NamedChild(children[j].0, context, names[j]) &&
                  children[j].0.extraDep == context.extraDep
    {
      var c := context.Child(names[k], None, None, None, [], false);
      children := children + [(c, items[k])];
    }
  }

  // ---------------------------------------------------------------------------
  // The nested variants

  /** One tuple the nested iteration yields, without its context: the
      context's job prefix and output directory, and the items it stands for. */
  datatype Row = Row(prefix: Option<string>, outdir: string, values: seq<PyValue>)

  /** The item lists of the nesting levels agree with their names. */
  predicate Conforms(dims: seq<seq<PyValue>>, names: seq<seq<string>>) {
    |names| == |dims| && forall k :: 0 <= k < |dims| ==> |names[k]| == |dims[k]|
  }

  /** The names of every level, or the first error, in the order the nested
      loops meet them: a level's names are computed when its loop starts, and
      an inner loop starts once for each item of the outer one. */
  function IterationNames(dims: seq<seq<PyValue>>): (r: Result<seq<seq<string>>, NamingError>)
    ensures r.Ok? ==> Conforms(dims, r.value)
    ensures r.Ok? <==> forall k :: 0 <= k < |dims| ==> ContextNames(dims[k]).Ok?
  {
    if |dims| == 0 then Ok([])
    else
      match ContextNames(dims[0])
      case Err(e) => Err(e)
      case Ok(n) =>
        var tail := IterationNames(dims[1..]);
        assert forall k :: 1 <= k < |dims| ==> dims[k] == dims[1..][k - 1];
        if tail.Err? then Err(tail.error)
        else
          assert forall k :: 1 <= k < |dims| ==> ([n] + tail.value)[k] == tail.value[k - 1];
          Ok([n] + tail.value)
  }

  /** Once the first level is named, the nesting fails exactly when the
      inner levels do, and otherwise adds the first level's names in front. */
  lemma IterationNamesStep(dims: seq<seq<PyValue>>)
    requires |dims| > 0 && ContextNames(dims[0]).Ok?
    ensures IterationNames(dims).Ok? <==> IterationNames(dims[1..]).Ok?
    ensures IterationNames(dims).Err? ==> IterationNames(dims).error == IterationNames(dims[1..]).error
    ensures IterationNames(dims).Ok? ==>
              IterationNames(dims).value[0] == ContextNames(dims[0]).value &&
              IterationNames(dims).value[1..] == IterationNames(dims[1..]).value
  {
  }

  /** The concatenation of a sequence of sequences. */
  function Concat<T>(ss: seq<seq<T>>): seq<T> {
    if |ss| == 0 then [] else Concat(ss[..|ss| - 1]) + ss[|ss| - 1]
  }

  /** The number of tuples: the product of the level sizes. */
  function Volume(dims: seq<seq<PyValue>>): nat {
    if |dims| == 0 then 1 else |dims[0]| * Volume(dims[1..])
  }

  /** The rows below one item: the item put in front of each row's values. */
  function Prepend(x: PyValue, rows: seq<Row>): (r: seq<Row>)
    ensures |r| == |rows|
    ensures forall k :: 0 <= k < |rows| ==> r[k] == rows[k].(values := [x] + rows[k].values)
  {
    seq(|rows|, k requires 0 <= k < |rows| => rows[k].(values := [x] + rows[k].values))
  }

  /** What the nested loops yield below a context with the given job prefix
      and output directory: for each item of the first level in turn, all
      the rows of its child. */
  function Grid(prefix: Option<string>, outdir: string, dims: seq<seq<PyValue>>, names: seq<seq<string>>): seq<Row>
    requires Conforms(dims, names)
    decreases |dims|, 1
  {
    if |dims| == 0 then [Row(prefix, outdir, [])]
    else
      assert forall k :: 1 <= k < |dims| ==> dims[k] == dims[1..][k - 1] && names[k] == names[1..][k - 1];
      Concat(Blocks(prefix, outdir, dims[0], names[0], dims[1..], names[1..]))
  }

  /** One block of rows per item of the first level: the rows of the child
      named after the item, with the item in front. */
  function Blocks(prefix: Option<string>, outdir: string, items: seq<PyValue>, itemNames: seq<string>,
                  inner: seq<seq<PyValue>>, innerNames: seq<seq<string>>): (b: seq<seq<Row>>)
    requires |itemNames| == |items| && Conforms(inner, innerNames)
    ensures |b| == |items|
    decreases |inner| + 1, 0
  {
    seq(|items|, i requires 0 <= i < |items| =>
      Prepend(items[i], Grid(ChildJobPrefix(prefix, itemNames[i], None), ChildOutputDir(outdir, itemNames[i], None),
                             inner, innerNames)))
  }

  lemma BlockAt(prefix: Option<string>, outdir: string, items: seq<PyValue>, itemNames: seq<string>,
                inner: seq<seq<PyValue>>, innerNames: seq<seq<string>>, i: nat)
    requires |itemNames| == |items| && Conforms(inner, innerNames) && i < |items|
    ensures Blocks(prefix, outdir, items, itemNames, inner, innerNames)[i] ==
            Prepend(items[i], Grid(ChildJobPrefix(prefix, itemNames[i], None), ChildOutputDir(outdir, itemNames[i], None),
                                   inner, innerNames))
  {
  }

  lemma ConcatSnoc<T>(ss: seq<seq<T>>, i: nat)
    requires i < |ss|
    ensures Concat(ss[..i + 1]) == Concat(ss[..i]) + ss[i]
  {
    assert ss[..i + 1][..i] == ss[..i];
  }

  /** In a concatenation of blocks of `m` elements, element `j` of block `i`
      sits at `i * m + j`. */
  lemma {:induction false} ConcatIndex<T>(ss: seq<seq<T>>, m: nat, i: nat, j: nat)
    requires forall k :: 0 <= k < |ss| ==> |ss[k]| == m
    requires i < |ss| && j < m
    ensures |Concat(ss)| == |ss| * m
    ensures i * m + j < |Concat(ss)| && Concat(ss)[i * m + j] == ss[i][j]
  {
    var n := |ss| - 1;
    var front := Concat(ss[..n]);
    ConcatLength(ss[..n], m);
    assert Concat(ss) == front + ss[n];
    assert |ss| * m == n * m + m;
    if i < n {
      ConcatIndex(ss[..n], m, i, j);
      assert ss[..n][i] == ss[i];
    } else {
      assert i * m + j == |front| + j;
    }
  }

  lemma {:induction false} ConcatLength<T>(ss: seq<seq<T>>, m: nat)
    requires forall k :: 0 <= k < |ss| ==> |ss[k]| == m
    ensures |Concat(ss)| == |ss| * m
  {
    if |ss| > 0 {
      ConcatLength(ss[..|ss| - 1], m);
    }
  }

  /** The nested iteration yields one tuple per combination of items. */
  lemma {:induction false} GridSize(prefix: Option<string>, outdir: string, dims: seq<seq<PyValue>>, names: seq<seq<string>>)
    requires Conforms(dims, names)
    ensures |Grid(prefix, outdir, dims, names)| == Volume(dims)
    decreases |dims|
  {
    if |dims| > 0 {
      assert forall k :: 1 <= k < |dims| ==> dims[k] == dims[1..][k - 1] && names[k] == names[1..][k - 1];
      var b := Blocks(prefix, outdir, dims[0], names[0], dims[1..], names[1..]);
      forall i | 0 <= i < |b|
        ensures |b[i]| == Volume(dims[1..])
      {
        GridSize(ChildJobPrefix(prefix, names[0][i], None), ChildOutputDir(outdir, names[0][i], None), dims[1..], names[1..]);
      }
      ConcatLength(b, Volume(dims[1..]));
    }
  }

  /** One level: the tuple for item `j` comes at `j`, and its context is
      the child `j`. */
  lemma GridIndex1(prefix: Option<string>, outdir: string, it: seq<PyValue>, n: seq<string>, j: nat)
    requires |n| == |it| && j < |it|
    ensures Conforms([it], [n])
    ensures var g := Grid(prefix, outdir, [it], [n]);
      |g| == |it| && g[j] == Row(ChildJobPrefix(prefix, n[j], None), ChildOutputDir(outdir, n[j], None), [it[j]])
  {
    assert [it][1..] == [] && [n][1..] == [];
    var b := Blocks(prefix, outdir, it, n, [], []);
    assert forall k :: 0 <= k < |it| ==> |b[k]| == 1;
    assert b[j][0] == Row(ChildJobPrefix(prefix, n[j], None), ChildOutputDir(outdir, n[j], None), [it[j]]);
    ConcatIndex(b, 1, j, 0);
  }

  /** Two levels in row-major order: the tuple for item `i` of the first
      level and item `j` of the second comes at `i * |it2| + j`, and its
      context is the child `j` of the child `i`. */
  lemma GridIndex2(prefix: Option<string>, outdir: string, it1: seq<PyValue>, it2: seq<PyValue>,
                   n1: seq<string>, n2: seq<string>, i: nat, j: nat)
    requires |n1| == |it1| && |n2| == |it2| && i < |it1| && j < |it2|
    ensures Conforms([it1, it2], [n1, n2])
    ensures var g := Grid(prefix, outdir, [it1, it2], [n1, n2]);
      |g| == |it1| * |it2| && i * |it2| + j < |g| &&
      g[i * |it2| + j] == Row(ChildJobPrefix(ChildJobPrefix(prefix, n1[i], None), n2[j], None),
                              ChildOutputDir(ChildOutputDir(outdir, n1[i], None), n2[j], None),
                              [it1[i], it2[j]])
  {
    GridOfTwo(prefix, outdir, it1, it2, n1, n2);
    var outer := Blocks(prefix, outdir, it1, n1, [it2], [n2]);
    forall a | 0 <= a < |it1|
      ensures |outer[a]| == |it2|
    {
      BlockOfOne(prefix, outdir, it1, it2, n1, n2, a, 0);
    }
    BlockOfOne(prefix, outdir, it1, it2, n1, n2, i, j);
    ConcatIndex(outer, |it2|, i, j);
  }

  /** The block of item `i` over a single inner level: one row per inner
      item, for the child `j` of the child `i`. */
  lemma BlockOfOne(prefix: Option<string>, outdir: string, it1: seq<PyValue>, it2: seq<PyValue>,
                   n1: seq<string>, n2: seq<string>, i: nat, j: nat)
    requires |n1| == |it1| && |n2| == |it2| && i < |it1| && j < |it2|
    ensures Conforms([it2], [n2])
    ensures var b := Blocks(prefix, outdir, it1, n1, [it2], [n2])[i];
      |b| == |it2| &&
      b[j] == Row(ChildJobPrefix(ChildJobPrefix(prefix, n1[i], None), n2[j], None),
                  ChildOutputDir(ChildOutputDir(outdir, n1[i], None), n2[j], None),
                  [it1[i], it2[j]])
  {
    var p, d := ChildJobPrefix(prefix, n1[i], None), ChildOutputDir(outdir, n1[i], None);
    GridIndex1(p, d, it2, n2, j);
    BlockAt(prefix, outdir, it1, n1, [it2], [n2], i);
    assert [it1[i]] + [it2[j]] == [it1[i], it2[j]];
  }

  lemma GridOfTwo(prefix: Option<string>, outdir: string, it1: seq<PyValue>, it2: seq<PyValue>,
                  n1: seq<string>, n2: seq<string>)
    requires |n1| == |it1| && |n2| == |it2|
    ensures Conforms([it1, it2], [n1, n2])
    ensures Grid(prefix, outdir, [it1, it2], [n1, n2]) == Concat(Blocks(prefix, outdir, it1, n1, [it2], [n2]))
  {
    var dims, names := [it1, it2], [n1, n2];
    assert dims[1..] == [it2] && names[1..] == [n2];
  }

  /** The tuples yielded by the nested loops have the contexts and items the
      rows describe. */
  ghost predicate Yields(tuples: seq<(CompmakeContext, seq<PyValue>)>, rows: seq<Row>) {
    |tuples| == |rows| &&
    forall k :: 0 <= k < |rows| ==>
      tuples[k].0.jobPrefix == rows[k].prefix && tuples[k].0.outputDir == rows[k].outdir &&
      tuples[k].1 == rows[k].values
  }

  /** The tuples below one item: the item put in front of each tuple's items. */
  function PrependItem(x: PyValue, tuples: seq<(CompmakeContext, seq<PyValue>)>): (r: seq<(CompmakeContext, seq<PyValue>)>)
    ensures |r| == |tuples|
    ensures forall k :: 0 <= k < |tuples| ==> r[k] == (tuples[k].0, [x] + tuples[k].1)
  {
    seq(|tuples|, k requires 0 <= k < |tuples| => (tuples[k].0, [x] + tuples[k].1))
  }

  lemma InheritsTransitive(c: CompmakeContext, middle: CompmakeContext, context: CompmakeContext)
    requires Inherits(c, middle) && Inherits(middle, context)
    ensures Inherits(c, context)
  {
    c.AncestorsTransitive(middle);
  }

  /** Putting an item in front of the tuples' items puts it in front of the rows'. */
  lemma YieldsPrepend(x: PyValue, sub: seq<(CompmakeContext, seq<PyValue>)>, rows: seq<Row>)
    requires Yields(sub, rows)
    ensures Yields(PrependItem(x, sub), Prepend(x, rows))
  {
  }

  /** Extending the tuples yielded so far by the block of one more item keeps
      them in step with the rows. */
  lemma YieldsBlock(acc: seq<(CompmakeContext, seq<PyValue>)>, blocks: seq<seq<Row>>, i: nat,
                    block: seq<(CompmakeContext, seq<PyValue>)>)
    requires i < |blocks| && Yields(acc, Concat(blocks[..i])) && Yields(block, blocks[i])
    ensures Yields(acc + block, Concat(blocks[..i + 1]))
  {
    ConcatSnoc(blocks, i);
  }

  /** The contexts of the tuples. */
  ghost function ContextsOf(tuples: seq<(CompmakeContext, seq<PyValue>)>): set<CompmakeContext> {
    set k | 0 <= k < |tuples| :: tuples[k].0
  }

  lemma ContextsAppend(acc: seq<(CompmakeContext, seq<PyValue>)>, block: seq<(CompmakeContext, seq<PyValue>)>)
    ensures ContextsOf(acc + block) == ContextsOf(acc) + ContextsOf(block)
  {
    assert forall k :: 0 <= k < |acc| ==> (acc + block)[k] == acc[k];
    assert forall k :: |acc| <= k < |acc| + |block| ==> (acc + block)[k] == block[k - |acc|];
    forall c | c in ContextsOf(block) ensures c in ContextsOf(acc + block) {
      var k :| 0 <= k < |block| && block[k].0 == c;
      assert (acc + block)[|acc| + k].0 == c;
    }
  }

  lemma ContextsPrepend(x: PyValue, sub: seq<(CompmakeContext, seq<PyValue>)>)
    ensures ContextsOf(PrependItem(x, sub)) == ContextsOf(sub)
  {
    var more := PrependItem(x, sub);
    assert forall k :: 0 <= k < |more| ==> more[k].0 == sub[k].0;
    forall c | c in ContextsOf(sub) ensures c in ContextsOf(more) {
      var k :| 0 <= k < |sub| && sub[k].0 == c;
      assert more[k].0 == c;
    }
  }

  /** Every context of the tuples has `context` among its ancestors. */
  ghost predicate Descend(tuples: seq<(CompmakeContext, seq<PyValue>)>, context: CompmakeContext) {
    forall k :: 0 <= k < |tuples| ==> Inherits(tuples[k].0, context)
  }

  lemma DescendAppend(acc: seq<(CompmakeContext, seq<PyValue>)>, block: seq<(CompmakeContext, seq<PyValue>)>,
                      context: CompmakeContext)
    requires Descend(acc, context) && Descend(block, context)
    ensures Descend(acc + block, context)
  {
  }

  /** `iterate_context_names_pair`, `_triplet`, `_quartet` and `_quintuplet`
      are this nesting for two, three, four and five levels: the outer loop
      runs `iterate_context_names` on the context, and each of its children
      runs the remaining levels. */
  method IterateNested(context: CompmakeContext, dims: seq<seq<PyValue>>)
    returns (r: Result<seq<(CompmakeContext, seq<PyValue>)>, NamingError>)
    requires context.Valid()
    ensures r.Err? <==> IterationNames(dims).Err?
    ensures r.Err? ==> r.error == IterationNames(dims).error
    ensures r.Ok? ==> Yields(r.value, Grid(context.jobPrefix, context.outputDir, dims, IterationNames(dims).value))
    ensures |dims| == 0 ==> r == Ok([(context, [])])
    ensures r.Ok? && |dims| > 0 ==> fresh(ContextsOf(r.value)) && Descend(r.value, context)
    decreases |dims|, 2
  {
    if |dims| == 0 {
      return Ok([(context, [])]);
    }
    var names := ContextNames(dims[0]);
    if names.Err? {
      return Err(names.error);
    }
    IterationNamesStep(dims);
    r := IterateBelow(context, dims[0], names.value, dims[1..]);
  }

  /** The outer loop of the nesting, over the items of the first level. */
  method IterateBelow(context: CompmakeContext, items: seq<PyValue>, names: seq<string>, inner: seq<seq<PyValue>>)
    returns (r: Result<seq<(CompmakeContext, seq<PyValue>)>, NamingError>)
    requires context.Valid() && |items| > 0 && |names| == |items|
    ensures r.Err? <==> IterationNames(inner).Err?
    ensures r.Err? ==> r.error == IterationNames(inner).error
    ensures r.Ok? ==> Yields(r.value, Concat(Blocks(context.jobPrefix, context.outputDir, items, names,
                                                   inner, IterationNames(inner).value)))
    ensures r.Ok? ==> fresh(ContextsOf(r.value)) && Descend(r.value, context)
    decreases |inner| + 1, 1
  {
    var acc: seq<(CompmakeContext, seq<PyValue>)> := [];
    ghost var innerNames: seq<seq<string>> := [];
    for i := 0 to |items|
      invariant i == 0 ==> acc == []
      invariant i > 0 ==> IterationNames(inner) == Ok(innerNames)
      invariant i > 0 ==> Yields(acc, Concat(Blocks(context.jobPrefix, context.outputDir, items, names,
                                                    inner, innerNames)[..i]))
      invariant fresh(ContextsOf(acc)) && Descend(acc, context)
    {
      var block := IterateItem(context, items[i], names[i], inner);
      if block.Err? {
        return Err(block.error);
      }
      innerNames := IterationNames(inner).value;
      ghost var blocks := Blocks(context.jobPrefix, context.outputDir, items, names, inner, innerNames);
      BlockAt(context.jobPrefix, context.outputDir, items, names, inner, innerNames, i);
      assert blocks[..0] == [];
      YieldsBlock(acc, blocks, i, block.value);
      ContextsAppend(acc, block.value);
      DescendAppend(acc, block.value, context);
      acc := acc + block.value;
    }
    ghost var blocks := Blocks(context.jobPrefix, context.outputDir, items, names, inner, innerNames);
    assert blocks[..|items|] == blocks;
    return Ok(acc);
  }

  /** One round of the outer loop: the generator of `iterate_context_names`
      makes the child named after the item, and the inner levels run below it. */
  method IterateItem(context: CompmakeContext, item: PyValue, name: string, inner: seq<seq<PyValue>>)
    returns (r: Result<seq<(CompmakeContext, seq<PyValue>)>, NamingError>)
    requires context.Valid()
    ensures r.Err? <==> IterationNames(inner).Err?
    ensures r.Err? ==> r.error == IterationNames(inner).error
    ensures r.Ok? ==> Yields(r.value, Prepend(item, Grid(ChildJobPrefix(context.jobPrefix, name, None),
                                                         ChildOutputDir(context.outputDir, name, None),
                                                         inner, IterationNames(inner).value)))
    ensures r.Ok? ==> fresh(ContextsOf(r.value)) && Descend(r.value, context)
    decreases |inner| + 1, 0
  {
    var child := context.Child(name, None, None, None, [], false);
    var sub := IterateNested(child, inner);
    if sub.Err? {
      return Err(sub.error);
    }
    YieldsPrepend(item, sub.value, Grid(child.jobPrefix, child.outputDir, inner, IterationNames(inner).value));
    ContextsPrepend(item, sub.value);
    if |inner| == 0 {
      assert sub.value[0].0 == child;
      assert ContextsOf(sub.value) == {child};
    } else {
      forall k | 0 <= k < |sub.value|
        ensures Inherits(sub.value[k].0, context)
      {
        InheritsTransitive(sub.value[k].0, child, context);
      }
    }
    return Ok(PrependItem(item, sub.value));
  }

  // ---------------------------------------------------------------------------
  // The fixed-arity variants

  /** Every row of the grid holds one item per level. */
  lemma {:induction false} GridWidth(prefix: Option<string>, outdir: string, dims: seq<seq<PyValue>>, names: seq<seq<string>>)
    requires Conforms(dims, names)
    ensures forall k :: 0 <= k < |Grid(prefix, outdir, dims, names)| ==> |Grid(prefix, outdir, dims, names)[k].values| == |dims|
    decreases |dims|
  {
    if |dims| > 0 {
      assert forall k :: 1 <= k < |dims| ==> dims[k] == dims[1..][k - 1] && names[k] == names[1..][k - 1];
      var b: seq<seq<Row>> := Blocks(prefix, outdir, dims[0], names[0], dims[1..], names[1..]);
      forall i | 0 <= i < |b|
        ensures forall k :: 0 <= k < |b[i]| ==> |b[i][k].values| == |dims|
      {
        GridWidth(ChildJobPrefix(prefix, names[0][i], None), ChildOutputDir(outdir, names[0][i], None), dims[1..], names[1..]);
      }
      ConcatWidth(b, |dims|);
    }
  }

  lemma {:induction false} ConcatWidth(ss: seq<seq<Row>>, w: nat)
    requires forall i, k :: 0 <= i < |ss| && 0 <= k < |ss[i]| ==> |ss[i][k].values| == w
    ensures forall k :: 0 <= k < |Concat(ss)| ==> |Concat(ss)[k].values| == w
  {
    if |ss| > 0 {
      var n := |ss| - 1;
      ConcatWidth(ss[..n], w);
      var c := Concat(ss[..n]);
      assert forall k :: 0 <= k < |c| ==> (c + ss[n])[k] == c[k];
      assert forall k :: |c| <= k < |c| + |ss[n]| ==> (c + ss[n])[k] == ss[n][k - |c|];
    }
  }

  /** Tuples of one context and `w` items. */
  predicate Width(g: seq<(CompmakeContext, seq<PyValue>)>, w: nat) {
    forall k :: 0 <= k < |g| ==> |g[k].1| == w
  }

  /** The nested iteration over `dims`, with every tuple holding one item per level. */
  method IterateWide(context: CompmakeContext, dims: seq<seq<PyValue>>)
    returns (r: Result<seq<(CompmakeContext, seq<PyValue>)>, NamingError>)
    requires context.Valid() && |dims| > 0
    ensures r.Err? <==> IterationNames(dims).Err?
    ensures r.Err? ==> r.error == IterationNames(dims).error
    ensures r.Ok? ==> Yields(r.value, Grid(context.jobPrefix, context.outputDir, dims, IterationNames(dims).value))
    ensures r.Ok? ==> |r.value| == Volume(dims) && Width(r.value, |dims|)
    ensures r.Ok? ==> forall k :: 0 <= k < |r.value| ==> fresh(r.value[k].0) && Inherits(r.value[k].0, context)
  {
    r := IterateNested(context, dims);
    if r.Ok? {
      var names := IterationNames(dims).value;
      GridSize(context.jobPrefix, context.outputDir, dims, names);
      GridWidth(context.jobPrefix, context.outputDir, dims, names);
      assert forall k :: 0 <= k < |r.value| ==> r.value[k].0 in ContextsOf(r.value);
    }
  }

  /** The `(context, x1, x2)` tuples as a context and its items. */
  function Unpairs(ts: seq<(CompmakeContext, PyValue, PyValue)>): seq<(CompmakeContext, seq<PyValue>)> {
    seq(|ts|, k requires 0 <= k < |ts| => (ts[k].0, [ts[k].1, ts[k].2]))
  }

  function Pairs(g: seq<(CompmakeContext, seq<PyValue>)>): (ts: seq<(CompmakeContext, PyValue, PyValue)>)
    requires Width(g, 2)
    ensures Unpairs(ts) == g
  {
    var ts := seq(|g|, k requires 0 <= k < |g| => (g[k].0, g[k].1[0], g[k].1[1]));
    assert forall k :: 0 <= k < |g| ==> [g[k].1[0], g[k].1[1]] == g[k].1;
    ts
  }

  function Untriplets(ts: seq<(CompmakeContext, PyValue, PyValue, PyValue)>): seq<(CompmakeContext, seq<PyValue>)> {
    seq(|ts|, k requires 0 <= k < |ts| => (ts[k].0, [ts[k].1, ts[k].2, ts[k].3]))
  }

  function Triplets(g: seq<(CompmakeContext, seq<PyValue>)>): (ts: seq<(CompmakeContext, PyValue, PyValue, PyValue)>)
    requires Width(g, 3)
    ensures Untriplets(ts) == g
  {
    var ts := seq(|g|, k requires 0 <= k < |g| => (g[k].0, g[k].1[0], g[k].1[1], g[k].1[2]));
    assert forall k :: 0 <= k < |g| ==> [g[k].1[0], g[k].1[1], g[k].1[2]] == g[k].1;
    ts
  }

  function Unquartets(ts: seq<(CompmakeContext, PyValue, PyValue, PyValue, PyValue)>): seq<(CompmakeContext, seq<PyValue>)> {
    seq(|ts|, k requires 0 <= k < |ts| => (ts[k].0, [ts[k].1, ts[k].2, ts[k].3, ts[k].4]))
  }

  function Quartets(g: seq<(CompmakeContext, seq<PyValue>)>): (ts: seq<(CompmakeContext, PyValue, PyValue, PyValue, PyValue)>)
    requires Width(g, 4)
    ensures Unquartets(ts) == g
  {
    var ts := seq(|g|, k requires 0 <= k < |g| => (g[k].0, g[k].1[0], g[k].1[1], g[k].1[2], g[k].1[3]));
    assert forall k :: 0 <= k < |g| ==> [g[k].1[0], g[k].1[1], g[k].1[2], g[k].1[3]] == g[k].1;
    ts
  }

  function Unquintuplets(ts: seq<(CompmakeContext, PyValue, PyValue, PyValue, PyValue, PyValue)>): seq<(CompmakeContext, seq<PyValue>)> {
    seq(|ts|, k requires 0 <= k < |ts| => (ts[k].0, [ts[k].1, ts[k].2, ts[k].3, ts[k].4, ts[k].5]))
  }

  function Quintuplets(g: seq<(CompmakeContext, seq<PyValue>)>): (ts: seq<(CompmakeContext, PyValue, PyValue, PyValue, PyValue, PyValue)>)
    requires Width(g, 5)
    ensures Unquintuplets(ts) == g
  {
    var ts := seq(|g|, k requires 0 <= k < |g| => (g[k].0, g[k].1[0], g[k].1[1], g[k].1[2], g[k].1[3], g[k].1[4]));
    assert forall k :: 0 <= k < |g| ==> [g[k].1[0], g[k].1[1], g[k].1[2], g[k].1[3], g[k].1[4]] == g[k].1;
    ts
  }

  /** The tuple for item `i` of `it1` and item `j` of `it2` comes at
      `i * |it2| + j`, with the grandchild named after both items. */
  ghost predicate PairAt(ts: seq<(CompmakeContext, PyValue, PyValue)>, prefix: Option<string>, outdir: string,
                         it1: seq<PyValue>, it2: seq<PyValue>, n1: seq<string>, n2: seq<string>, i: nat, j: nat)
    requires i < |it1| == |n1| && j < |it2| == |n2|
  {
    i * |it2| + j < |ts| &&
    var t := ts[i * |it2| + j];
    t.1 == it1[i] && t.2 == it2[j] &&
    t.0.jobPrefix == ChildJobPrefix(ChildJobPrefix(prefix, n1[i], None), n2[j], None) &&
    t.0.outputDir == ChildOutputDir(ChildOutputDir(outdir, n1[i], None), n2[j], None)
  }

  /** Two levels are named when both are, and the first failure is the first level's. */
  lemma PairNames(it1: seq<PyValue>, it2: seq<PyValue>)
    ensures IterationNames([it1, it2]).Ok? <==> ContextNames(it1).Ok? && ContextNames(it2).Ok?
    ensures IterationNames([it1, it2]).Err? ==>
              IterationNames([it1, it2]).error ==
              if ContextNames(it1).Err? then ContextNames(it1).error else ContextNames(it2).error
    ensures IterationNames([it1, it2]).Ok? ==>
              IterationNames([it1, it2]).value == [ContextNames(it1).value, ContextNames(it2).value]
  {
    var dims := [it1, it2];
    assert dims[1..] == [it2] && dims[1..][1..] == [];
  }

  /** Tuples in step with the grid of two levels hold the pairs in row-major order. */
  lemma PairsInRowMajorOrder(prefix: Option<string>, outdir: string, it1: seq<PyValue>, it2: seq<PyValue>,
                             n1: seq<string>, n2: seq<string>, g: seq<(CompmakeContext, seq<PyValue>)>)
    requires |n1| == |it1| && |n2| == |it2| && Width(g, 2)
    requires Conforms([it1, it2], [n1, n2]) && Yields(g, Grid(prefix, outdir, [it1, it2], [n1, n2]))
    ensures forall i, j :: 0 <= i < |it1| && 0 <= j < |it2| ==> PairAt(Pairs(g), prefix, outdir, it1, it2, n1, n2, i, j)
  {
    forall i, j | 0 <= i < |it1| && 0 <= j < |it2|
      ensures PairAt(Pairs(g), prefix, outdir, it1, it2, n1, n2, i, j)
    {
      PairAtIndex(prefix, outdir, it1, it2, n1, n2, g, i, j);
    }
  }

  lemma PairAtIndex(prefix: Option<string>, outdir: string, it1: seq<PyValue>, it2: seq<PyValue>,
                    n1: seq<string>, n2: seq<string>, g: seq<(CompmakeContext, seq<PyValue>)>, i: nat, j: nat)
    requires |n1| == |it1| && |n2| == |it2| && Width(g, 2) && i < |it1| && j < |it2|
    requires Conforms([it1, it2], [n1, n2]) && Yields(g, Grid(prefix, outdir, [it1, it2], [n1, n2]))
    ensures PairAt(Pairs(g), prefix, outdir, it1, it2, n1, n2, i, j)
  {
    GridIndex2(prefix, outdir, it1, it2, n1, n2, i, j);
    PairAtOfRows(prefix, outdir, it1, it2, n1, n2, g, Grid(prefix, outdir, [it1, it2], [n1, n2]), i, j);
  }

  lemma PairAtOfRows(prefix: Option<string>, outdir: string, it1: seq<PyValue>, it2: seq<PyValue>,
                     n1: seq<string>, n2: seq<string>, g: seq<(CompmakeContext, seq<PyValue>)>, rows: seq<Row>,
                     i: nat, j: nat)
    requires |n1| == |it1| && |n2| == |it2| && Width(g, 2) && i < |it1| && j < |it2| && Yields(g, rows)
    requires i * |it2| + j < |rows|
    requires rows[i * |it2| + j] == Row(ChildJobPrefix(ChildJobPrefix(prefix, n1[i], None), n2[j], None),
                                        ChildOutputDir(ChildOutputDir(outdir, n1[i], None), n2[j], None),
                                        [it1[i], it2[j]])
    ensures PairAt(Pairs(g), prefix, outdir, it1, it2, n1, n2, i, j)
  {
    PairOfRow(g, rows, i * |it2| + j);
  }

  /** Tuple `k` of the pairs carries the context and the two items of row `k`. */
  lemma PairOfRow(g: seq<(CompmakeContext, seq<PyValue>)>, rows: seq<Row>, k: nat)
    requires Width(g, 2) && Yields(g, rows) && k < |rows|
    ensures k < |Pairs(g)|
    ensures var t := Pairs(g)[k];
      t.0.jobPrefix == rows[k].prefix && t.0.outputDir == rows[k].outdir &&
      |rows[k].values| == 2 && t.1 == rows[k].values[0] && t.2 == rows[k].values[1]
  {
    var ts := Pairs(g);
    assert Unpairs(ts)[k] == (ts[k].0, [ts[k].1, ts[k].2]) == g[k];
  }

  lemma VolumePair(it1: seq<PyValue>, it2: seq<PyValue>)
    ensures Volume([it1, it2]) == |it1| * |it2|
  {
    assert [it1, it2][1..] == [it2] && [it2][1..] == [];
    assert Volume([it2]) == |it2| * Volume([]);
  }

  /** `iterate_context_names_pair(context, it1, it2)` */
  method IteratePair(context: CompmakeContext, it1: seq<PyValue>, it2: seq<PyValue>)
    returns (r: Result<seq<(CompmakeContext, PyValue, PyValue)>, NamingError>)
    requires context.Valid()
    ensures r.Err? <==> ContextNames(it1).Err? || ContextNames(it2).Err?
    ensures r.Err? ==> r.error == if ContextNames(it1).Err? then ContextNames(it1).error else ContextNames(it2).error
    ensures r.Ok? ==> |r.value| == |it1| * |it2|
    ensures r.Ok? ==> forall i, j :: 0 <= i < |it1| && 0 <= j < |it2| ==>
              PairAt(r.value, context.jobPrefix, context.outputDir, it1, it2,
                     ContextNames(it1).value, ContextNames(it2).value, i, j)
    ensures r.Ok? ==> forall k :: 0 <= k < |r.value| ==> fresh(r.value[k].0) && Inherits(r.value[k].0, context)
  {
    PairNames(it1, it2);
    var g := IterateWide(context, [it1, it2]);
    if g.Err? {
      return Err(g.error);
    }
    var n1, n2 := ContextNames(it1).value, ContextNames(it2).value;
    PairsInRowMajorOrder(context.jobPrefix, context.outputDir, it1, it2, n1, n2, g.value);
    var ts := Pairs(g.value);
    assert forall k :: 0 <= k < |ts| ==> Unpairs(ts)[k] == g.value[k];
    VolumePair(it1, it2);
    return Ok(ts);
  }

  /** `iterate_context_names_triplet(context, it1, it2, it3)` */
  method IterateTriplet(context: CompmakeContext, it1: seq<PyValue>, it2: seq<PyValue>, it3: seq<PyValue>)
    returns (r: Result<seq<(CompmakeContext, PyValue, PyValue, PyValue)>, NamingError>)
    requires context.Valid()
    ensures r.Err? <==> IterationNames([it1, it2, it3]).Err?
    ensures r.Err? ==> r.error == IterationNames([it1, it2, it3]).error
    ensures r.Ok? ==> |r.value| == Volume([it1, it2, it3])
    ensures r.Ok? ==> Yields(Untriplets(r.value), Grid(context.jobPrefix, context.outputDir, [it1, it2, it3],
                                               IterationNames([it1, it2, it3]).value))
    ensures r.Ok? ==> forall k :: 0 <= k < |r.value| ==> fresh(r.value[k].0) && Inherits(r.value[k].0, context)
  {
    var g := IterateWide(context, [it1, it2, it3]);
    if g.Err? {
      return Err(g.error);
    }
    var ts := Triplets(g.value);
    assert forall k :: 0 <= k < |ts| ==> Untriplets(ts)[k] == g.value[k];
    return Ok(ts);
  }

  /** `iterate_context_names_quartet(context, it1, it2, it3, it4)` */
  method IterateQuartet(context: CompmakeContext, it1: seq<PyValue>, it2: seq<PyValue>, it3: seq<PyValue>,
                        it4: seq<PyValue>)
    returns (r: Result<seq<(CompmakeContext, PyValue, PyValue, PyValue, PyValue)>, NamingError>)
    requires context.Valid()
    ensures r.Err? <==> IterationNames([it1, it2, it3, it4]).Err?
    ensures r.Err? ==> r.error == IterationNames([it1, it2, it3, it4]).error
    ensures r.Ok? ==> |r.value| == Volume([it1, it2, it3, it4])
    ensures r.Ok? ==> Yields(Unquartets(r.value), Grid(context.jobPrefix, context.outputDir, [it1, it2, it3, it4],
                                               IterationNames([it1, it2, it3, it4]).value))
    ensures r.Ok? ==> forall k :: 0 <= k < |r.value| ==> fresh(r.value[k].0) && Inherits(r.value[k].0, context)
  {
    var g := IterateWide(context, [it1, it2, it3, it4]);
    if g.Err? {
      return Err(g.error);
    }
    var ts := Quartets(g.value);
    assert forall k :: 0 <= k < |ts| ==> Unquartets(ts)[k] == g.value[k];
    return Ok(ts);
  }

  /** `iterate_context_names_quintuplet(context, it1, it2, it3, it4, it5)` */
  method IterateQuintuplet(context: CompmakeContext, it1: seq<PyValue>, it2: seq<PyValue>, it3: seq<PyValue>,
                           it4: seq<PyValue>, it5: seq<PyValue>)
    returns (r: Result<seq<(CompmakeContext, PyValue, PyValue, PyValue, PyValue, PyValue)>, NamingError>)
    requires context.Valid()
    ensures r.Err? <==> IterationNames([it1, it2, it3, it4, it5]).Err?
    ensures r.Err? ==> r.error == IterationNames([it1, it2, it3, it4, it5]).error
    ensures r.Ok? ==> |r.value| == Volume([it1, it2, it3, it4, it5])
    ensures r.Ok? ==> Yields(Unquintuplets(r.value), Grid(context.jobPrefix, context.outputDir, [it1, it2, it3, it4, it5],
                                                  IterationNames([it1, it2, it3, it4, it5]).value))
    ensures r.Ok? ==> forall k :: 0 <= k < |r.value| ==> fresh(r.value[k].0) && Inherits(r.value[k].0, context)
  {
    var g := IterateWide(context, [it1, it2, it3, it4, it5]);
    if g.Err? {
      return Err(g.error);
    }
    var ts := Quintuplets(g.value);
    assert forall k :: 0 <= k < |ts| ==> Unquintuplets(ts)[k] == g.value[k];
    return Ok(ts);
  }

  // ---------------------------------------------------------------------------
  // Examples

  /** Two objects without a `_` have a single token each, so the only
      candidates tried are the empty prefix and postfix, and the names are
      the objects themselves. */
  lemma NoSeparatorPair(a: string, b: string)
    requires Sep !in a && Sep !in b
    ensures BoundaryDecomposition([a, b]) == Ok(Decomposition("", [a, b], ""))
  {
    var objects := [a, b];
    NoSeparatorAffixes(objects);
    assert forall k :: 0 <= k < 2 ==> objects[k] == "" + objects[k] + "";
    StripAffixes(objects, "", objects, "");
  }

  lemma NoSeparatorAffixes(objects: seq<string>)
    requires |objects| == 2 && Sep !in objects[0] && Sep !in objects[1]
    ensures BoundaryPrefix(objects) == "" && BoundaryPostfix(objects) == ""
  {
    TokensOf(objects[0], [objects[0]]);
    TokensOf(objects[1], [objects[1]]);
    assert MaxTokenCount(objects) == 1;
    EmptyCandidates(objects, [objects[0]]);
  }

  lemma OneLetterGood(x: char)
    requires !IsSeparator(x)
    ensures GoodContextName([x]) == [x]
  {
    assert [x][1..] == [];
    assert RemoveChar([x], '-') == [x];
  }

  /** Two different one-letter items are named by themselves. */
  lemma OneLetterNames(x: char, y: char)
    requires !IsSeparator(x) && !IsSeparator(y)
    ensures ContextNames([PyStr([x]), PyStr([y])]) == Ok([[x], [y]])
  {
    var items, objects := [PyStr([x]), PyStr([y])], [[x], [y]];
    OneLetterStrs(x, y);
    NoSeparatorPair([x], [y]);
    NamesOfDecomposition(items, Decomposition("", objects, ""));
    OneLetterGoodNames(x, y);
  }

  lemma OneLetterGoodNames(x: char, y: char)
    requires !IsSeparator(x) && !IsSeparator(y)
    ensures GoodContextNames([[x], [y]]) == [[x], [y]]
  {
    OneLetterGood(x);
    OneLetterGood(y);
  }

  lemma OneLetterStrs(x: char, y: char)
    ensures Strs([PyStr([x]), PyStr([y])]) == [[x], [y]]
  {
    assert Str(PyStr([x])) == [x] && Str(PyStr([y])) == [y];
  }

  /** The names are the cleaned minimal names of a successful decomposition. */
  lemma NamesOfDecomposition(items: seq<PyValue>, d: Decomposition)
    requires |items| > 0 && BoundaryDecomposition(Strs(items)) == Ok(d)
    ensures ContextNames(items) == Ok(GoodContextNames(d.minimal))
  {
  }

  lemma OneLetterPrefix(x: char, y: char)
    requires !IsSeparator(x) && !IsSeparator(y)
    ensures ChildJobPrefix(ChildJobPrefix(None, [x], None), [y], None) == Some([x, '-', y])
  {
    assert FriendlyName([x]) == [x];
    assert FriendlyName([y]) == [y];
    assert [x] + "-" + [y] == [x, '-', y];
  }

  /** Under a context without a job prefix, the pair of the letters `a`, `b`
      and `m`, `n` gives the contexts `a-m`, `a-n`, `b-m` and `b-n`, in that
      order. */
  method PairOfLetters(context: CompmakeContext, a: char, b: char, m: char, n: char)
    returns (r: Result<seq<(CompmakeContext, PyValue, PyValue)>, NamingError>)
    requires context.Valid() && context.jobPrefix == None
    requires !IsSeparator(a) && !IsSeparator(b) && !IsSeparator(m) && !IsSeparator(n)
    ensures r.Ok? && |r.value| == 4
    ensures r.Ok? ==> r.value[0].0.jobPrefix == Some([a, '-', m]) && r.value[1].0.jobPrefix == Some([a, '-', n]) &&
                      r.value[2].0.jobPrefix == Some([b, '-', m]) && r.value[3].0.jobPrefix == Some([b, '-', n])
  {
    var it1, it2 := [PyStr([a]), PyStr([b])], [PyStr([m]), PyStr([n])];
    OneLetterNames(a, b);
    OneLetterNames(m, n);
    r := IteratePair(context, it1, it2);
    LettersInOrder(r.value, context.outputDir, a, b, m, n);
  }

  lemma LettersInOrder(ts: seq<(CompmakeContext, PyValue, PyValue)>, outdir: string, a: char, b: char, m: char, n: char)
    requires !IsSeparator(a) && !IsSeparator(b) && !IsSeparator(m) && !IsSeparator(n)
    requires forall i, j :: 0 <= i < 2 && 0 <= j < 2 ==>
               PairAt(ts, None, outdir, [PyStr([a]), PyStr([b])], [PyStr([m]), PyStr([n])], [[a], [b]], [[m], [n]], i, j)
    ensures |ts| >= 4
    ensures ts[0].0.jobPrefix == Some([a, '-', m]) && ts[1].0.jobPrefix == Some([a, '-', n]) &&
            ts[2].0.jobPrefix == Some([b, '-', m]) && ts[3].0.jobPrefix == Some([b, '-', n])
  {
    var it1, it2 := [PyStr([a]), PyStr([b])], [PyStr([m]), PyStr([n])];
    assert PairAt(ts, None, outdir, it1, it2, [[a], [b]], [[m], [n]], 1, 1);
    OneLetterPrefix(a, m);
    OneLetterPrefix(a, n);
    OneLetterPrefix(b, m);
    OneLetterPrefix(b, n);
    assert PairAt(ts, None, outdir, it1, it2, [[a], [b]], [[m], [n]], 0, 0);
    assert PairAt(ts, None, outdir, it1, it2, [[a], [b]], [[m], [n]], 0, 1);
    assert PairAt(ts, None, outdir, it1, it2, [[a], [b]], [[m], [n]], 1, 0);
  }
}
