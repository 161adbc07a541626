/**
 * The post-processing of an answer in `generate_recommendation` of
 * `ijunavi/rag_service.py`: the first line of the answer becomes the headline,
 * the rest the body, and the names of the source files are listed after a
 * separator, each once, in the order they first appear, at most three. The
 * chain itself is left out: what its `invoke` returned, or the error it
 * raised, is a parameter.
 */
module Recommendation {
  import opened Common
  import opened Text

  /** The returned dict `{"headline": ..., "spots": [...]}`. */
  datatype Recommendation = Recommendation(headline: string, spots: seq<string>)

  /**
   * What `qa_chain.invoke` did: returned a result (its `result` entry, if any,
   * and the `source` metadata of each source document, if any), or raised.
   */
  datatype Invocation = Answered(result: Option<string>, sources: seq<Option<string>>) | Raised(err: string)

  const InitFailedHeadline: string := "【システムエラー】RAGサービスの初期化に失敗しました"
  const InitFailedSpot: string := "データフォルダ(data)にファイルがあるか、APIキーが正しいか確認してください。"
  const InvokeFailedHeadline: string := "【システムエラー】回答生成中に問題が発生しました"
  const DefaultAnswer: string := "情報が不足しているため、具体的な提案ができません。"
  const FallbackHeadline: string := "AIによる移住先提案"
  const SourcesSeparator: string := "\n--- 参照情報 ---"
  const UnknownSource: string := "不明"
  /** At most this many source names are listed. */
  const MaxSources: nat := 3

  /** The index of the first line break in `s`, or `|s|` if there is none. */
  function NewlineIndex(s: string): (n: nat)
    ensures n <= |s|
    ensures forall k :: 0 <= k < n ==> s[k] != '\n'
    ensures n < |s| ==> s[n] == '\n'
  {
    if s == [] || s[0] == '\n' then 0 else 1 + NewlineIndex(s[1..])
  }

  /** `s.split('\n', 1)`: the text before the first line break and, if there is one, the text after it. */
  function SplitOnce(s: string): (r: seq<string>)
    ensures 1 <= |r| <= 2
    ensures '\n' !in r[0]
    ensures |r| == 1 <==> '\n' !in s
    ensures |r| == 1 ==> r[0] == s
    ensures |r| == 2 ==> s == r[0] + "\n" + r[1]
  {
    var n := NewlineIndex(s);
    if n == |s| then
      assert s[..n] == s;
      [s]
    else
      assert s == s[..n] + "\n" + s[n + 1..];
      [s[..n], s[n + 1..]]
  }

  /** `lines[0].strip() if lines else "AIによる移住先提案"`. */
  function Headline(answer: string): string
  {
    var lines := SplitOnce(answer);
    if |lines| > 0 then Strip(lines[0]) else FallbackHeadline
  }

  /** `lines[1].strip() if len(lines) > 1 else headline`. */
  function Body(answer: string): string
  {
    var lines := SplitOnce(answer);
    if |lines| > 1 then Strip(lines[1]) else Headline(answer)
  }

  /**
   * The headline is the first line, stripped, and holds no line break (so the
   * fallback headline is never chosen); an answer without a line break is its
   * own headline and body; otherwise the body is the rest, stripped.
   */
  lemma HeadlineAndBody(answer: string)
    ensures '\n' !in Headline(answer)
    ensures Headline(answer) == Strip(answer[..NewlineIndex(answer)])
    ensures '\n' !in answer ==> Body(answer) == Headline(answer) == Strip(answer)
    ensures '\n' in answer ==> Body(answer) == Strip(answer[NewlineIndex(answer) + 1..])
  {
    var lines := SplitOnce(answer);
    var n := NewlineIndex(answer);
    if '\n' in answer {
      var k :| 0 <= k < |answer| && answer[k] == '\n';
      assert n < |answer|;
      assert answer[..n] == lines[0] && answer[n + 1..] == lines[1];
    } else {
      assert answer[..n] == answer;
    }
  }

  /** The base name `Path(p).name` gives on a POSIX system: the last component, `""` for none. */
  function BaseName(p: string): (r: string)
    ensures '/' !in r
    decreases |p|
  {
    if p == [] then ""
    else if p[|p| - 1] == '/' then BaseName(p[..|p| - 1])
    else
      var seg := LastSegment(p);
      if seg == "." then BaseName(p[..|p| - 1]) else seg
  }

  /** The characters after the last `/`. */
  function LastSegment(p: string): (r: string)
    ensures '/' !in r
    ensures |r| <= |p| && r == p[|p| - |r|..]
  {
    if p == [] || p[|p| - 1] == '/' then ""
    else LastSegment(p[..|p| - 1]) + [p[|p| - 1]]
  }

  /** A plain file name, as the documents carry it, is its own base name. */
  lemma {:induction false} BaseNameOfFileName(n: string)
    requires n != "" && n != "." && '/' !in n
    ensures BaseName(n) == n
  {
    PlainSegment(n);
  }

  lemma {:induction false} PlainSegment(n: string)
    requires '/' !in n
    ensures LastSegment(n) == n
  {
    if n != [] {
      PlainSegment(n[..|n| - 1]);
      assert n == n[..|n| - 1] + [n[|n| - 1]];
    }
  }

  /** The name shown for one source document. */
  function SourceName(source: Option<string>): string
  {
    BaseName(Pick(source, UnknownSource))
  }

  function Pick(o: Option<string>, default: string): string
  {
    match o
    case Some(v) => v
    case None => default
  }

  /** `Path(doc.metadata.get("source", "不明")).name` for each source document. */
  function SourceNames(sources: seq<Option<string>>): (r: seq<string>)
    ensures |r| == |sources|
  {
    seq(|sources|, k requires 0 <= k < |sources| => SourceName(sources[k]))
  }

  /** The distinct names of `s`, each where it first appears. */
  function FirstSeen(s: seq<string>): (r: seq<string>)
    ensures |r| <= |s|
    ensures forall x :: x in r <==> x in s
    ensures forall i, j :: 0 <= i < j < |r| ==> r[i] != r[j]
  {
    if s == [] then []
    else
      var init := s[..|s| - 1];
      var r := FirstSeen(init);
      assert forall x :: x in s <==> x in init || x == s[|s| - 1] by {
        assert s == init + [s[|s| - 1]];
      }
      if s[|s| - 1] in init then r else r + [s[|s| - 1]]
  }

  /** The position where a name first occurs does not change when more names follow. */
  lemma FirstIndexOfPrefix(s: seq<string>, n: nat, x: string)
    requires n <= |s| && x in s[..n]
    ensures FirstIndex(s, x) == FirstIndex(s[..n], x)
  {
    var i, j := FirstIndex(s, x), FirstIndex(s[..n], x);
    assert s[j] == x;
  }

  /** The names listed appear in the order in which they first occur in the sources. */
  lemma {:induction false} FirstSeenOrder(s: seq<string>)
    ensures forall p, q :: 0 <= p < q < |FirstSeen(s)| ==> FirstIndex(s, FirstSeen(s)[p]) < FirstIndex(s, FirstSeen(s)[q])
  {
    if s != [] {
      var init := s[..|s| - 1];
      var r, r0 := FirstSeen(s), FirstSeen(init);
      FirstSeenOrder(init);
      forall p, q | 0 <= p < q < |r|
        ensures FirstIndex(s, r[p]) < FirstIndex(s, r[q])
      {
        assert r[p] == r0[p];
        FirstIndexOfPrefix(s, |s| - 1, r[p]);
        if q < |r0| {
          assert r[q] == r0[q];
          FirstIndexOfPrefix(s, |s| - 1, r[q]);
        } else {
          assert r[q] == s[|s| - 1] && s[|s| - 1] !in init;
          assert FirstIndex(s, r[q]) == |s| - 1;
        }
      }
    }
  }

  /** The names first seen among the first `n` sources lead the names first seen among all of them. */
  lemma {:induction false} FirstSeenPrefix(s: seq<string>, n: nat)
    requires n <= |s|
    ensures FirstSeen(s[..n]) <= FirstSeen(s)
    decreases |s| - n
  {
    if n < |s| {
      FirstSeenPrefix(s, n + 1);
      assert s[..n + 1][..n] == s[..n];
    } else {
      assert s[..n] == s;
    }
  }

  function Take(s: seq<string>, n: nat): (r: seq<string>)
    ensures |r| == Min(n, |s|) && r <= s
  {
    if |s| <= n then s else s[..n]
  }

  /** `f"【参照元】{src}"`. */
  function SourceLine(name: string): string
  {
    "【参照元】" + name
  }

  /** One reference line per name. */
  function SourceLines(names: seq<string>): seq<string>
  {
    seq(|names|, k requires 0 <= k < |names| => SourceLine(names[k]))
  }

  lemma SourceLinesSnoc(names: seq<string>, x: string)
    ensures SourceLines(names + [x]) == SourceLines(names) + [SourceLine(x)]
  {
  }

  /**
   * The de-duplication loop: the separator, then a line per source name not
   * seen before, stopping after the third.
   */
  method SourceSpots(sources: seq<Option<string>>) returns (spots: seq<string>)
    ensures spots == [SourcesSeparator] + SourceLines(Take(FirstSeen(SourceNames(sources)), MaxSources))
  {
    spots := NameSpots(SourceNames(sources));
  }

  /** The loop of `SourceSpots` over the sources' names, in order. */
  method NameSpots(names: seq<string>) returns (spots: seq<string>)
    ensures spots == [SourcesSeparator] + SourceLines(Take(FirstSeen(names), MaxSources))
  {
    spots := [SourcesSeparator];
    var seen: set<string> := {};
    var count := 0;
    var i := 0;
    while i < |names|
      invariant 0 <= i <= |names|
      invariant count == |FirstSeen(names[..i])| < MaxSources
      invariant seen == Elems(names[..i])
      invariant spots == [SourcesSeparator] + SourceLines(FirstSeen(names[..i]))
    {
      spots, seen, count := VisitName(names, i, spots, seen, count);
      if count >= MaxSources {
        TakeAtLimit(names, i + 1);
        return;
      }
      i := i + 1;
    }
    assert names[..i] == names;
    TakeAll(names);
  }

  /** One round of the loop: list the name at `i` unless it was seen. */
  method VisitName(names: seq<string>, i: nat, spots: seq<string>, seen: set<string>, count: nat)
    returns (spots': seq<string>, seen': set<string>, count': nat)
    requires i < |names|
    requires count == |FirstSeen(names[..i])| && seen == Elems(names[..i])
    requires spots == [SourcesSeparator] + SourceLines(FirstSeen(names[..i]))
    ensures count' == |FirstSeen(names[..i + 1])| <= count + 1 && seen' == Elems(names[..i + 1])
    ensures spots' == [SourcesSeparator] + SourceLines(FirstSeen(names[..i + 1]))
  {
    var src := names[i];
    SpotsStep(names, i);
    spots', seen', count' := spots, seen, count;
    if src !in seen {
      spots' := spots + [SourceLine(src)];
      seen' := seen + {src};
      count' := count + 1;
    }
  }

  /** The names occurring in `s`. */
  function Elems(s: seq<string>): set<string>
  {
    set x | x in s
  }

  /** What one more name does to the listed lines and to the names seen. */
  lemma SpotsStep(names: seq<string>, i: nat)
    requires i < |names|
    ensures Elems(names[..i + 1]) == Elems(names[..i]) + {names[i]}
    ensures names[i] in Elems(names[..i]) ==> FirstSeen(names[..i + 1]) == FirstSeen(names[..i])
    ensures names[i] !in Elems(names[..i]) ==>
      && |FirstSeen(names[..i + 1])| == |FirstSeen(names[..i])| + 1
      && SourceLines(FirstSeen(names[..i + 1])) == SourceLines(FirstSeen(names[..i])) + [SourceLine(names[i])]
  {
    FirstSeenSnoc(names, i);
    SourceLinesSnoc(FirstSeen(names[..i]), names[i]);
  }

  /** Fewer than `MaxSources` names are all listed. */
  lemma TakeAll(names: seq<string>)
    requires |FirstSeen(names)| < MaxSources
    ensures Take(FirstSeen(names), MaxSources) == FirstSeen(names)
  {
  }

  /** Once a prefix shows `MaxSources` names, those are the ones listed. */
  lemma TakeAtLimit(names: seq<string>, n: nat)
    requires n <= |names| && |FirstSeen(names[..n])| == MaxSources
    ensures Take(FirstSeen(names), MaxSources) == FirstSeen(names[..n])
  {
    FirstSeenPrefix(names, n);
  }

  /** One more name: it is listed after the others unless it was already seen. */
  lemma FirstSeenSnoc(s: seq<string>, n: nat)
    requires n < |s|
    ensures forall x :: x in s[..n + 1] <==> x in s[..n] || x == s[n]
    ensures FirstSeen(s[..n + 1]) == if s[n] in s[..n] then FirstSeen(s[..n]) else FirstSeen(s[..n]) + [s[n]]
  {
    assert s[..n + 1] == s[..n] + [s[n]];
    assert s[..n + 1][..n] == s[..n];
  }

  /**
   * `generate_recommendation(prompt)` once the chain was or was not set up:
   * `chainReady` says whether one is available after `initialize_rag()`.
   */
  method GenerateRecommendation(chainReady: bool, call: Invocation) returns (r: Recommendation)
    ensures !chainReady ==> r == Recommendation(InitFailedHeadline, [InitFailedSpot])
    ensures chainReady && call.Raised? ==> r == Recommendation(InvokeFailedHeadline, ["エラー詳細: " + call.err])
    ensures chainReady && call.Answered? ==>
      var answer := Pick(call.result, DefaultAnswer);
      && r.headline == Headline(answer)
      && |r.spots| >= 1 && r.spots[0] == Body(answer)
      && (call.sources == [] ==> |r.spots| == 1)
      && (call.sources != [] ==> r.spots[1..] == [SourcesSeparator] + SourceLines(Take(FirstSeen(SourceNames(call.sources)), MaxSources)))
  {
    if !chainReady {
      return Recommendation(InitFailedHeadline, [InitFailedSpot]);
    }
    match call
    case Raised(err) =>
      r := Recommendation(InvokeFailedHeadline, ["エラー詳細: " + err]);
    case Answered(result, sources) =>
      var answer := Pick(result, DefaultAnswer);
      var lines := SplitOnce(answer);
      var headline := if |lines| > 0 then Strip(lines[0]) else FallbackHeadline;
      var body := if |lines| > 1 then Strip(lines[1]) else headline;
      var spots := [body];
      if sources != [] {
        var more := SourceSpots(sources);
        spots := spots + more;
      }
      r := Recommendation(headline, spots);
  }

  /**
   * The listed sources: at most three lines after the separator, no name
   * twice, every name one of the sources' names, in order of first
   * appearance, and fewer than three only when there are no more names.
   */
  lemma ListedSources(sources: seq<Option<string>>)
    ensures var names := SourceNames(sources);
      var listed := Take(FirstSeen(names), MaxSources);
      && |listed| <= MaxSources
      && (forall i, j :: 0 <= i < j < |listed| ==> listed[i] != listed[j])
      && (forall k :: 0 <= k < |listed| ==> listed[k] in names)
      && (forall p, q :: 0 <= p < q < |listed| ==> FirstIndex(names, listed[p]) < FirstIndex(names, listed[q]))
      && (|listed| < MaxSources ==> forall x :: x in names ==> x in listed)
  {
    var names := SourceNames(sources);
    FirstSeenOrder(names);
    var f := FirstSeen(names);
    var listed := Take(f, MaxSources);
    assert forall k :: 0 <= k < |listed| ==> listed[k] == f[k];
  }
}
