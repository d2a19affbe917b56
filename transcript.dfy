/**
 * The transcript aggregator of the live session hook: speech-to-text fragments
 * `(role, text, isFinal)` are folded into an ordered list of chat messages.
 */
module Transcript {

  datatype Role = User | Model

  /** A chat message; `id` and `timestamp` are drawn fresh when the message is opened. */
  datatype ChatMessage = ChatMessage(id: string, role: Role, text: string, timestamp: int, isFinal: bool)

  /** True when a fragment from `role` extends the last message of `prev` instead of opening a new one. */
  predicate ExtendsLast(prev: seq<ChatMessage>, role: Role) {
    |prev| > 0 && prev[|prev| - 1].role == role && !prev[|prev| - 1].isFinal
  }

  /**
   * One call of addMessage. `id` and `timestamp` stand for the random id and the
   * clock reading the call draws; they are used only when a message is opened.
   */
  function AddMessage(prev: seq<ChatMessage>, role: Role, text: string, isFinal: bool, id: string, timestamp: int)
    : (r: seq<ChatMessage>)
    ensures ExtendsLast(prev, role) ==>
      && |r| == |prev|
      && r[..|r| - 1] == prev[..|prev| - 1]
      && r[|r| - 1].id == prev[|prev| - 1].id
      && r[|r| - 1].timestamp == prev[|prev| - 1].timestamp
      && r[|r| - 1].role == role
      && r[|r| - 1].text == prev[|prev| - 1].text + text
      && r[|r| - 1].isFinal == isFinal
    ensures !ExtendsLast(prev, role) ==>
      && |r| == |prev| + 1
      && r[..|prev|] == prev
      && r[|prev|] == ChatMessage(id, role, text, timestamp, isFinal)
  {
    if ExtendsLast(prev, role) then
      var last := prev[|prev| - 1];
      prev[..|prev| - 1] + [last.(text := last.text + text, isFinal := isFinal)]
    else
      prev + [ChatMessage(id, role, text, timestamp, isFinal)]
  }

  /** One addMessage call, with the fresh id and timestamp it would draw. */
  datatype Fragment = Fragment(role: Role, text: string, isFinal: bool, id: string, timestamp: int)

  /** The message list after the calls `frags`, in order, starting from `msgs`. */
  function Fold(msgs: seq<ChatMessage>, frags: seq<Fragment>): (r: seq<ChatMessage>)
    decreases |frags|
  {
    if frags == [] then msgs
    else
      var f := frags[0];
      Fold(AddMessage(msgs, f.role, f.text, f.isFinal, f.id, f.timestamp), frags[1..])
  }

  /** All message texts, concatenated in list order. */
  function Texts(msgs: seq<ChatMessage>): (text: string)
    decreases |msgs|
  {
    if msgs == [] then "" else Texts(msgs[..|msgs| - 1]) + msgs[|msgs| - 1].text
  }

  /** All fragment texts, concatenated in delivery order. */
  function FragmentTexts(frags: seq<Fragment>): (text: string)
    decreases |frags|
  {
    if frags == [] then "" else frags[0].text + FragmentTexts(frags[1..])
  }

  /** Folding a concatenation is folding its two parts in turn. */
  lemma {:induction false} FoldAppend(msgs: seq<ChatMessage>, a: seq<Fragment>, b: seq<Fragment>)
    ensures Fold(msgs, a + b) == Fold(Fold(msgs, a), b)
    ensures FragmentTexts(a + b) == FragmentTexts(a) + FragmentTexts(b)
    decreases |a|
  {
    if a == [] {
      assert a + b == b;
    } else {
      var f := a[0];
      assert (a + b)[0] == f;
      assert (a + b)[1..] == a[1..] + b;
      FoldAppend(AddMessage(msgs, f.role, f.text, f.isFinal, f.id, f.timestamp), a[1..], b);
    }
  }

  /** Folding one fragment is one addMessage call. */
  lemma FoldSingle(msgs: seq<ChatMessage>, f: Fragment)
    ensures Fold(msgs, [f]) == AddMessage(msgs, f.role, f.text, f.isFinal, f.id, f.timestamp)
    ensures FragmentTexts([f]) == f.text
  {
    assert [f][1..] == [];
  }

  /** No two adjacent messages have the same role. */
  ghost predicate Alternates(msgs: seq<ChatMessage>) {
    forall i :: 0 < i < |msgs| ==> msgs[i - 1].role != msgs[i].role
  }

  /** No message has been closed by a final fragment. */
  ghost predicate AllOpen(msgs: seq<ChatMessage>) {
    forall i :: 0 <= i < |msgs| ==> !msgs[i].isFinal
  }

  /** No fragment text is lost or reordered by one call. */
  lemma AddMessageTexts(prev: seq<ChatMessage>, role: Role, text: string, isFinal: bool, id: string, timestamp: int)
    ensures Texts(AddMessage(prev, role, text, isFinal, id, timestamp)) == Texts(prev) + text
  {
  }

  /** The fold invariant: the message texts are the fragment texts, in order. */
  lemma {:induction false} FoldTexts(msgs: seq<ChatMessage>, frags: seq<Fragment>)
    ensures Texts(Fold(msgs, frags)) == Texts(msgs) + FragmentTexts(frags)
    decreases |frags|
  {
    if frags != [] {
      var f := frags[0];
      var next := AddMessage(msgs, f.role, f.text, f.isFinal, f.id, f.timestamp);
      AddMessageTexts(msgs, f.role, f.text, f.isFinal, f.id, f.timestamp);
      FoldTexts(next, frags[1..]);
    }
  }

  /** A non-final fragment keeps an alternating list of open messages alternating and open. */
  lemma AddOpenKeepsAlternation(prev: seq<ChatMessage>, role: Role, text: string, id: string, timestamp: int)
    requires Alternates(prev) && AllOpen(prev)
    ensures Alternates(AddMessage(prev, role, text, false, id, timestamp))
    ensures AllOpen(AddMessage(prev, role, text, false, id, timestamp))
  {
  }

  /**
   * With every fragment non-final (as the hook's callers always pass), adjacent
   * messages never share a role and no message is ever final.
   */
  lemma {:induction false} FoldOpenAlternates(msgs: seq<ChatMessage>, frags: seq<Fragment>)
    requires Alternates(msgs) && AllOpen(msgs)
    requires forall j :: 0 <= j < |frags| ==> !frags[j].isFinal
    ensures Alternates(Fold(msgs, frags)) && AllOpen(Fold(msgs, frags))
    decreases |frags|
  {
    if frags != [] {
      var f := frags[0];
      AddOpenKeepsAlternation(msgs, f.role, f.text, f.id, f.timestamp);
      FoldOpenAlternates(AddMessage(msgs, f.role, f.text, f.isFinal, f.id, f.timestamp), frags[1..]);
    }
  }

  /**
   * The message count never shrinks and grows by at most one per fragment, and a
   * message that is final keeps its place and its contents through any later fragments.
   */
  lemma {:induction false} FoldFreezesFinal(msgs: seq<ChatMessage>, frags: seq<Fragment>)
    ensures |msgs| <= |Fold(msgs, frags)| <= |msgs| + |frags|
    ensures forall i :: 0 <= i < |msgs| && msgs[i].isFinal ==> Fold(msgs, frags)[i] == msgs[i]
    decreases |frags|
  {
    if frags != [] {
      var f := frags[0];
      var next := AddMessage(msgs, f.role, f.text, f.isFinal, f.id, f.timestamp);
      forall i | 0 <= i < |msgs| && msgs[i].isFinal ensures next[i] == msgs[i] {
        if ExtendsLast(msgs, f.role) {
          assert i < |msgs| - 1;
          assert next[i] == next[..|next| - 1][i];
        } else {
          assert next[i] == next[..|msgs|][i];
        }
      }
      FoldFreezesFinal(next, frags[1..]);
    }
  }

  /** `after` is `before` with possibly more text: same id, role and timestamp, and the old text as a prefix. */
  ghost predicate Grown(before: ChatMessage, after: ChatMessage) {
    && after.id == before.id && after.role == before.role && after.timestamp == before.timestamp
    && before.text <= after.text
  }

  /**
   * Messages are only appended or extended: every message before the old last
   * one is left exactly as it was, and the old last message keeps its id, role
   * and timestamp while its text can only grow.
   */
  lemma {:induction false} FoldKeepsPrefix(msgs: seq<ChatMessage>, frags: seq<Fragment>)
    requires |msgs| > 0
    ensures |msgs| <= |Fold(msgs, frags)|
    ensures Fold(msgs, frags)[..|msgs| - 1] == msgs[..|msgs| - 1]
    ensures Grown(msgs[|msgs| - 1], Fold(msgs, frags)[|msgs| - 1])
    decreases |frags|
  {
    if frags != [] {
      var f := frags[0];
      var next := AddMessage(msgs, f.role, f.text, f.isFinal, f.id, f.timestamp);
      var n := |msgs|;
      FoldKeepsPrefix(next, frags[1..]);
      var r := Fold(next, frags[1..]);
      assert r == Fold(msgs, frags);
      if ExtendsLast(msgs, f.role) {
        assert |next| == n;
      } else {
        assert r[..n] == next[..n] == msgs;
        assert r[..n - 1] == r[..n][..n - 1];
        assert r[n - 1] == r[..n][n - 1];
      }
    }
  }

  /**
   * The worked example of finality: two user fragments, the second final, then a
   * final agent fragment give two messages; a later user fragment opens a third.
   */
  lemma FinalityExample()
    ensures Fold([], [Fragment(User, "Hel", false, "a", 0), Fragment(User, "lo", true, "b", 1),
                      Fragment(Model, "Hi", true, "c", 2)])
            == [ChatMessage("a", User, "Hello", 0, true), ChatMessage("c", Model, "Hi", 2, true)]
    ensures AddMessage([ChatMessage("a", User, "Hello", 0, true), ChatMessage("c", Model, "Hi", 2, true)],
                       User, "Again", false, "d", 3)
            == [ChatMessage("a", User, "Hello", 0, true), ChatMessage("c", Model, "Hi", 2, true),
                ChatMessage("d", User, "Again", 3, false)]
  {
    var m1 := AddMessage([], User, "Hel", false, "a", 0);
    assert m1 == [ChatMessage("a", User, "Hel", 0, false)];
    var m2 := AddMessage(m1, User, "lo", true, "b", 1);
    assert "Hel" + "lo" == "Hello";
    assert m2 == [ChatMessage("a", User, "Hello", 0, true)];
  }
}
