// `Processor.process_msgs`: run the per-message hook on every message and
// flatten its results into one list.
module Processors {
  import opened Seqs

  /** What `process_msg` returns: one string, or a list of strings. */
  datatype Processed = One(text: string) | Many(items: seq<string>)

  /** How many output elements one result contributes. */
  function Width(p: Processed): nat {
    match p
    case One(_) => 1
    case Many(xs) => |xs|
  }

  /** The elements one result contributes, in order. */
  function Items(p: Processed): (r: seq<string>)
    ensures |r| == Width(p)
  {
    match p
    case One(t) => [t]
    case Many(xs) => xs
  }

  /** Reference definition: the in-order concatenation of the results. */
  function Flatten(msgs: seq<string>, processMsg: string -> Processed): seq<string>
  {
    if msgs == [] then []
    else Flatten(msgs[..|msgs| - 1], processMsg) + Items(processMsg(msgs[|msgs| - 1]))
  }

  /** Total number of elements the results contribute. */
  function TotalWidth(msgs: seq<string>, processMsg: string -> Processed): nat
  {
    if msgs == [] then 0
    else TotalWidth(msgs[..|msgs| - 1], processMsg) + Width(processMsg(msgs[|msgs| - 1]))
  }

  /** The loop of `process_msgs`: append a string result, extend by a list result. */
  method ProcessMsgs(msgs: seq<string>, processMsg: string -> Processed)
    returns (newMsgs: seq<string>)
    ensures newMsgs == Flatten(msgs, processMsg)
  {
    newMsgs := [];
    var i := 0;
    while i < |msgs|
      invariant 0 <= i <= |msgs|
      invariant newMsgs == Flatten(msgs[..i], processMsg)
    {
      PrefixSnoc(msgs, i);
      var processed := processMsg(msgs[i]);
      match processed {
        case One(t) => newMsgs := newMsgs + [t];
        case Many(xs) => newMsgs := newMsgs + xs;
      }
      i := i + 1;
    }
    TakeAll(msgs);
  }

  /** Empty input gives an empty list. */
  lemma FlattenEmpty(processMsg: string -> Processed)
    ensures Flatten([], processMsg) == []
  {
  }

  /** The output length is the sum of the per-message widths. */
  lemma {:induction false} FlattenLength(msgs: seq<string>, processMsg: string -> Processed)
    ensures |Flatten(msgs, processMsg)| == TotalWidth(msgs, processMsg)
  {
    if msgs != [] {
      FlattenLength(msgs[..|msgs| - 1], processMsg);
    }
  }

  /** One more message appends its own result. */
  lemma FlattenSnoc(msgs: seq<string>, m: string, processMsg: string -> Processed)
    ensures Flatten(msgs + [m], processMsg) == Flatten(msgs, processMsg) + Items(processMsg(m))
  {
    SnocPrefix(msgs, m);
  }

  /** Flattening distributes over concatenation of the input. */
  lemma {:induction false} FlattenAppend(a: seq<string>, b: seq<string>, processMsg: string -> Processed)
    ensures Flatten(a + b, processMsg) == Flatten(a, processMsg) + Flatten(b, processMsg)
    decreases |b|
  {
    if b == [] {
      AppendNil(a);
      AppendNil(Flatten(a, processMsg));
    } else {
      var init, last := b[..|b| - 1], b[|b| - 1];
      AppendSnoc(a, b);
      FlattenSnoc(a + init, last, processMsg);
      FlattenAppend(a, init, processMsg);
      SplitLast(b);
      FlattenSnoc(init, last, processMsg);
      AppendAssoc(Flatten(a, processMsg), Flatten(init, processMsg), Items(processMsg(last)));
    }
  }

  /** The result for message `i` sits in place in the output, right after the
      results of the earlier messages: a string as itself, a list as its
      elements in their order. */
  lemma FlattenAt(msgs: seq<string>, i: nat, processMsg: string -> Processed)
    requires i < |msgs|
    ensures var o, out, p := TotalWidth(msgs[..i], processMsg), Flatten(msgs, processMsg), processMsg(msgs[i]);
      && o + Width(p) <= |out|
      && (p.One? ==> out[o] == p.text)
      && (p.Many? ==> out[o..o + |p.items|] == p.items)
  {
    var before, after := msgs[..i], msgs[i + 1..];
    var p := processMsg(msgs[i]);
    PrefixSnoc(msgs, i);
    TakeDrop(msgs, i + 1);
    FlattenAppend(msgs[..i + 1], after, processMsg);
    FlattenLength(before, processMsg);
    SliceMiddle(Flatten(before, processMsg), Items(p), Flatten(after, processMsg));
    AppendAssoc(Flatten(before, processMsg), Items(p), Flatten(after, processMsg));
  }

  /** When every message yields one string, the output is the element-wise image. */
  lemma {:induction false} FlattenAllStrings(msgs: seq<string>, processMsg: string -> Processed)
    requires forall i :: 0 <= i < |msgs| ==> processMsg(msgs[i]).One?
    ensures |Flatten(msgs, processMsg)| == |msgs|
    ensures forall i :: 0 <= i < |msgs| ==> Flatten(msgs, processMsg)[i] == processMsg(msgs[i]).text
  {
    if msgs != [] {
      var init, last := msgs[..|msgs| - 1], msgs[|msgs| - 1];
      assert forall i :: 0 <= i < |init| ==> init[i] == msgs[i];
      FlattenAllStrings(init, processMsg);
      var head := Flatten(init, processMsg);
      assert Flatten(msgs, processMsg) == head + [processMsg(last).text];
      assert forall i :: 0 <= i < |init| ==> (head + [processMsg(last).text])[i] == head[i];
    }
  }
}
