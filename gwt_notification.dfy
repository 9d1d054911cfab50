/** The GWT flavour of the notification: frames that the GWT runtime adds
    while creating an exception are filtered out of the stack. */
module GwtNotifications {
  import opened Wrappers
  import opened Notifications

  /** The files whose frames belong to GWT's exception machinery. */
  const GwtIgnoreFiles: seq<string> := ["StackTraceCreator.java", "Exceptions.java"]

  /** A frame from one of the ignored files. */
  predicate Overhead(f: Frame) {
    f.fileName.Some? && f.fileName.value in GwtIgnoreFiles
  }

  /** The stack without its overhead frames, in the original order. */
  function WithoutOverhead(frames: seq<Frame>): seq<Frame> {
    if frames == [] then []
    else
      var last := frames[|frames| - 1];
      WithoutOverhead(frames[..|frames| - 1]) + (if Overhead(last) then [] else [last])
  }

  /** `isGwtOverhead`: compares the frame's file name with each ignored
      file in turn and stops at the first match. */
  method IsGwtOverhead(f: Frame) returns (overhead: bool)
    ensures overhead <==> Overhead(f)
    ensures f.fileName.None? ==> !overhead
  {
    for i := 0 to |GwtIgnoreFiles|
      invariant forall j :: 0 <= j < i ==> f.fileName != Some(GwtIgnoreFiles[j])
    {
      if f.fileName == Some(GwtIgnoreFiles[i]) {
        return true;
      }
    }
    return false;
  }

  /** `extractStackTraceElements`: keeps the frames that are not overhead,
      appending each to the result list as the loop meets it. */
  method ExtractStackTraceElements(frames: seq<Frame>) returns (kept: seq<Frame>)
    ensures kept == WithoutOverhead(frames)
  {
    kept := [];
    for i := 0 to |frames|
      invariant kept == WithoutOverhead(frames[..i])
    {
      assert frames[..i + 1][..i] == frames[..i];
      var overhead := IsGwtOverhead(frames[i]);
      if !overhead {
        kept := kept + [frames[i]];
      }
    }
    assert frames[..|frames|] == frames;
  }

  /** Filtering distributes over concatenation. */
  lemma {:induction false} WithoutOverheadAppend(a: seq<Frame>, b: seq<Frame>)
    ensures WithoutOverhead(a + b) == WithoutOverhead(a) + WithoutOverhead(b)
    decreases |b|
  {
    if b == [] {
      assert a + b == a;
    } else {
      var init := b[..|b| - 1];
      assert (a + b)[..|a + b| - 1] == a + init;
      WithoutOverheadAppend(a, init);
    }
  }

  /** A frame is kept exactly when it was in the stack and is not overhead. */
  lemma {:induction false} WithoutOverheadMembers(frames: seq<Frame>, f: Frame)
    ensures f in WithoutOverhead(frames) <==> f in frames && !Overhead(f)
    decreases |frames|
  {
    if frames != [] {
      var init := frames[..|frames| - 1];
      WithoutOverheadMembers(init, f);
      assert frames == init + [frames[|frames| - 1]];
    }
  }

  /** The result is no longer than the stack, and as long exactly when no
      frame is overhead. */
  lemma {:induction false} WithoutOverheadLength(frames: seq<Frame>)
    ensures |WithoutOverhead(frames)| <= |frames|
    ensures |WithoutOverhead(frames)| == |frames| <==> forall i :: 0 <= i < |frames| ==> !Overhead(frames[i])
    decreases |frames|
  {
    if frames != [] {
      var init := frames[..|frames| - 1];
      WithoutOverheadLength(init);
      if forall i :: 0 <= i < |frames| ==> !Overhead(frames[i]) {
        assert forall i :: 0 <= i < |init| ==> !Overhead(init[i]) by {
          forall i | 0 <= i < |init| ensures !Overhead(init[i]) {
            assert init[i] == frames[i];
          }
        }
      } else if !Overhead(frames[|frames| - 1]) {
        var i :| 0 <= i < |frames| && Overhead(frames[i]);
        assert init[i] == frames[i];
      }
    }
  }

  /** Filtering a filtered stack changes nothing. */
  lemma {:induction false} WithoutOverheadIdempotent(frames: seq<Frame>)
    ensures WithoutOverhead(WithoutOverhead(frames)) == WithoutOverhead(frames)
    decreases |frames|
  {
    if frames != [] {
      var init := frames[..|frames| - 1];
      var last := frames[|frames| - 1];
      var tail := if Overhead(last) then [] else [last];
      WithoutOverheadIdempotent(init);
      WithoutOverheadAppend(WithoutOverhead(init), tail);
      if !Overhead(last) {
        assert WithoutOverhead([last]) == WithoutOverhead([]) + [last];
      }
    }
  }

  /** Kept frames keep their relative order: two frames of the result come
      from two frames of the stack in the same order. */
  lemma {:induction false} WithoutOverheadOrder(frames: seq<Frame>, i: int, j: int)
    requires 0 <= i < j < |WithoutOverhead(frames)|
    ensures exists p, q ::
              0 <= p < q < |frames| && frames[p] == WithoutOverhead(frames)[i] && frames[q] == WithoutOverhead(frames)[j]
    decreases |frames|
  {
    var init := frames[..|frames| - 1];
    var last := frames[|frames| - 1];
    var r := WithoutOverhead(frames);
    if j < |WithoutOverhead(init)| {
      WithoutOverheadOrder(init, i, j);
      var p, q :| 0 <= p < q < |init| && init[p] == WithoutOverhead(init)[i] && init[q] == WithoutOverhead(init)[j];
      assert frames[p] == r[i] && frames[q] == r[j];
    } else {
      WithoutOverheadMembers(init, r[i]);
      var p :| 0 <= p < |init| && init[p] == r[i];
      assert frames[p] == r[i];
      assert r[j] == last;
      assert frames[|frames| - 1] == r[j];
    }
  }
}
