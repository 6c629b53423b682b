/// URLs as the demo views use them: the index page lists the path pattern of
/// every URL once (the format strings of the resolver's reverse table), and a
/// demo view takes its rendering mode from the last dotted segment of its URL
/// name.
module Urls {
  import opened Values

  /// A URL path is listed when it is truthy, that is, not empty.
  predicate Listable(path: string) {
    path != ""
  }

  /// The listed paths in order of first occurrence, each once. Specifies the
  /// filter-then-reduce in `render_suburls`.
  function Distinct(paths: seq<string>): seq<string> {
    if paths == [] then []
    else
      var seen := Distinct(paths[..|paths| - 1]);
      var last := paths[|paths| - 1];
      if Listable(last) && last !in seen then seen + [last] else seen
  }

  /// The position of the first occurrence of a path.
  function FirstIndex(paths: seq<string>, s: string): (k: nat)
    requires s in paths
    ensures k < |paths| && paths[k] == s
    ensures forall i :: 0 <= i < k ==> paths[i] != s
  {
    if paths[0] == s then 0 else 1 + FirstIndex(paths[1..], s)
  }

  lemma {:induction false} FirstIndexOfPrefix(paths: seq<string>, extra: seq<string>, s: string)
    requires s in paths
    ensures FirstIndex(paths + extra, s) == FirstIndex(paths, s)
  {
    if paths[0] != s {
      assert (paths + extra)[1..] == paths[1..] + extra;
      FirstIndexOfPrefix(paths[1..], extra, s);
    }
  }

  /// Exactly the truthy paths are listed.
  lemma {:induction false} DistinctElements(paths: seq<string>)
    ensures forall s :: s in Distinct(paths) <==> s != "" && s in paths
  {
    if paths != [] {
      var init := paths[..|paths| - 1];
      DistinctElements(init);
      assert paths == init + [paths[|paths| - 1]];
    }
  }

  /// No path is listed twice.
  lemma {:induction false} DistinctHasNoDuplicates(paths: seq<string>)
    ensures forall i, j :: 0 <= i < j < |Distinct(paths)| ==> Distinct(paths)[i] != Distinct(paths)[j]
  {
    if paths != [] {
      DistinctHasNoDuplicates(paths[..|paths| - 1]);
    }
  }

  /// One more path either leaves the list as it was or appends that path,
  /// which was not listed yet.
  lemma DistinctStep(paths: seq<string>)
    requires paths != []
    ensures var init, last := paths[..|paths| - 1], paths[|paths| - 1];
      || Distinct(paths) == Distinct(init)
      || (Listable(last) && last !in Distinct(init) && Distinct(paths) == Distinct(init) + [last])
  {
  }

  /// A listed path occurs among the URL paths.
  lemma ListedOccurs(paths: seq<string>, s: string)
    requires s in Distinct(paths)
    ensures s in paths
  {
    DistinctElements(paths);
  }

  /// A non-empty path that is not listed does not occur.
  lemma UnlistedAbsent(paths: seq<string>, s: string)
    requires s != "" && s !in Distinct(paths)
    ensures s !in paths
  {
    DistinctElements(paths);
  }

  /// A path that does not occur before the last position first occurs there.
  lemma FirstIndexOfLast(paths: seq<string>, s: string)
    requires paths != [] && paths[|paths| - 1] == s && s !in paths[..|paths| - 1]
    ensures FirstIndex(paths, s) == |paths| - 1
  {
  }

  /// Of two listed paths, the one listed first occurs first.
  lemma {:induction false} FirstOccurrenceOrderPair(paths: seq<string>, i: nat, j: nat)
    requires i < j < |Distinct(paths)|
    ensures Distinct(paths)[i] in paths && Distinct(paths)[j] in paths
    ensures FirstIndex(paths, Distinct(paths)[i]) < FirstIndex(paths, Distinct(paths)[j])
  {
    var d := Distinct(paths);
    ListedOccurs(paths, d[i]);
    ListedOccurs(paths, d[j]);
    var init, last := paths[..|paths| - 1], paths[|paths| - 1];
    assert init + [last] == paths;
    DistinctStep(paths);
    var di := Distinct(init);
    assert d[i] == di[i];
    ListedOccurs(init, d[i]);
    FirstIndexOfPrefix(init, [last], d[i]);
    if j < |di| {
      assert d[j] == di[j];
      FirstOccurrenceOrderPair(init, i, j);
      FirstIndexOfPrefix(init, [last], d[j]);
    } else {
      assert d[j] == last;
      UnlistedAbsent(init, last);
      FirstIndexOfLast(paths, d[j]);
    }
  }

  /// Paths are listed in the order of their first occurrence.
  lemma DistinctKeepsFirstOccurrenceOrder(paths: seq<string>)
    ensures forall s :: s in Distinct(paths) ==> s in paths
    ensures forall i, j :: 0 <= i < j < |Distinct(paths)| ==>
              FirstIndex(paths, Distinct(paths)[i]) < FirstIndex(paths, Distinct(paths)[j])
  {
    DistinctElements(paths);
    forall i, j | 0 <= i < j < |Distinct(paths)|
      ensures FirstIndex(paths, Distinct(paths)[i]) < FirstIndex(paths, Distinct(paths)[j])
    {
      FirstOccurrenceOrderPair(paths, i, j);
    }
  }

  /// The list of URL paths on the index page: `filter` drops the falsy paths,
  /// then `reduce` appends each path not already in the accumulator.
  method DistinctUrlPaths(paths: seq<string>) returns (all: seq<string>)
    ensures all == Distinct(paths)
    ensures forall s :: s in all <==> s != "" && s in paths
    ensures forall i, j :: 0 <= i < j < |all| ==> all[i] != all[j]
    ensures forall i, j :: 0 <= i < j < |all| ==> FirstIndex(paths, all[i]) < FirstIndex(paths, all[j])
  {
    all := [];
    for k := 0 to |paths|
      invariant all == Distinct(paths[..k])
    {
      assert paths[..k + 1][..k] == paths[..k];
      var path := paths[k];
      if Listable(path) && path !in all {
        all := all + [path];
      }
    }
    assert paths[..|paths|] == paths;
    DistinctElements(paths);
    DistinctHasNoDuplicates(paths);
    DistinctKeepsFirstOccurrenceOrder(paths);
  }

  /// `s.split('.')`: the dot-separated parts, always at least one.
  function SplitDots(s: string): (parts: seq<string>)
    ensures |parts| >= 1
    ensures forall i :: 0 <= i < |parts| ==> '.' !in parts[i]
  {
    if s == [] then [""]
    else
      var init := SplitDots(s[..|s| - 1]);
      if s[|s| - 1] == '.' then init + [""]
      else init[..|init| - 1] + [init[|init| - 1] + [s[|s| - 1]]]
  }

  /// `'.'.join(parts)`
  function JoinDots(parts: seq<string>): string
    requires |parts| >= 1
  {
    if |parts| == 1 then parts[0] else JoinDots(parts[..|parts| - 1]) + "." + parts[|parts| - 1]
  }

  lemma {:induction false} JoinDotsExtendLast(parts: seq<string>, c: char)
    requires |parts| >= 1
    ensures JoinDots(parts[..|parts| - 1] + [parts[|parts| - 1] + [c]]) == JoinDots(parts) + [c]
  {
    var q := parts[..|parts| - 1] + [parts[|parts| - 1] + [c]];
    if |parts| > 1 {
      assert q[..|q| - 1] == parts[..|parts| - 1];
    }
  }

  /// Joining the parts with dots gives the string back.
  lemma {:induction false} JoinSplitDots(s: string)
    ensures JoinDots(SplitDots(s)) == s
  {
    if s != [] {
      var init := s[..|s| - 1];
      JoinSplitDots(init);
      var p := SplitDots(init);
      if s[|s| - 1] == '.' {
        assert (p + [""])[..|p|] == p;
      } else {
        JoinDotsExtendLast(p, s[|s| - 1]);
      }
      assert init + [s[|s| - 1]] == s;
    }
  }

  /// The last part of `s.split('.')` is the longest dot-free suffix of `s`.
  lemma {:induction false} LastPartIsFinalSegment(s: string)
    ensures var parts := SplitDots(s); var m := parts[|parts| - 1];
      && |m| <= |s| && m == s[|s| - |m|..]
      && (|m| < |s| ==> s[|s| - |m| - 1] == '.')
  {
    if s != [] {
      LastPartIsFinalSegment(s[..|s| - 1]);
    }
  }

  /// `DemoViewMixin.mode`: the last dotted segment of the URL name, or
  /// nothing when the URL has no name or an empty one.
  function Mode(urlName: Option<string>): (mode: Option<string>)
    ensures mode.Some? <==> urlName.Some? && urlName.value != ""
    ensures mode.Some? ==>
              var s := urlName.value; var m := mode.value;
              && '.' !in m && |m| <= |s| && m == s[|s| - |m|..]
              && (|m| < |s| ==> s[|s| - |m| - 1] == '.')
  {
    if urlName.Some? && urlName.value != "" then
      var parts := SplitDots(urlName.value);
      LastPartIsFinalSegment(urlName.value);
      Some(parts[|parts| - 1])
    else
      None
  }

  lemma ModeExamples()
    ensures Mode(Some("complete.native")) == Some("native")
    ensures Mode(Some("address")) == Some("address")
    ensures Mode(Some("")) == None && Mode(None) == None
  {
    var s := "complete.native";
    assert s[..|s| - 1] == "complete.nativ";
    assert s[..|s| - 1][..|s| - 2] == "complete.nati";
  }
}
