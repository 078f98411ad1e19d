/** The preview-size selection policy of `configurePreviewSize`: the supported
    size nearest to the stored preference in L1 distance, the earliest one on a
    tie, stamped with the fixed frame rate. */
module SizeSelection {
  import opened Wrappers
  import opened KotlinInt

  /** A supported preview format of the camera. */
  datatype Size = Size(width: Int32, height: Int32, fps: Int32)

  /** The preference used when none has been stored. */
  const DEFAULT_WIDTH: Int32 := 2592
  const DEFAULT_HEIGHT: Int32 := 1944
  /** The frame rate stamped on the committed size. */
  const DEFAULT_FPS: Int32 := 25

  /** `k` holds a smallest key, and no earlier index holds one as small. */
  predicate IsFirstMin(keys: seq<int>, k: nat) {
    k < |keys| &&
    (forall i :: 0 <= i < |keys| ==> keys[k] <= keys[i]) &&
    (forall i :: 0 <= i < k ==> keys[k] < keys[i])
  }

  /** The scan of Kotlin's `minByOrNull` over a non-empty list, given the
      selector's value for each element: the running best is replaced only by
      a strictly smaller key. */
  function FirstMinIndex(keys: seq<int>): (r: nat)
    requires |keys| > 0
    ensures IsFirstMin(keys, r)
  {
    if |keys| == 1 then 0
    else
      var best := FirstMinIndex(keys[..|keys| - 1]);
      if keys[|keys| - 1] < keys[best] then |keys| - 1 else best
  }

  /** `minByOrNull`, as an index: null only for an empty list. */
  function MinByOrNull(keys: seq<int>): (r: Option<nat>)
    ensures r.None? <==> |keys| == 0
    ensures r.Some? ==> IsFirstMin(keys, r.value)
  {
    if |keys| == 0 then None else Some(FirstMinIndex(keys))
  }

  /** The size that is committed, given the selector's key for every supported
      size: None for an empty list, otherwise the `minByOrNull` winner (with
      the `?: supportedSizes.first()` fallback) stamped with `DEFAULT_FPS`. */
  function Commit(sizes: seq<Size>, keys: seq<int>): (r: Option<Size>)
    requires |keys| == |sizes|
    ensures r.None? <==> |sizes| == 0
    ensures r.Some? ==>
              exists k :: 0 <= k < |sizes| && r.value == sizes[k].(fps := DEFAULT_FPS) && IsFirstMin(keys, k)
  {
    if |sizes| == 0 then None
    else
      var k := MinByOrNull(keys).GetOr(0);
      Some(sizes[k].(fps := DEFAULT_FPS))
  }

  /** The L1 distance of a size from the preferred width and height. */
  function Distance(s: Size, preferredWidth: int, preferredHeight: int): nat {
    (if s.width >= preferredWidth then s.width - preferredWidth else preferredWidth - s.width) +
    (if s.height >= preferredHeight then s.height - preferredHeight else preferredHeight - s.height)
  }

  function DistanceKeys(sizes: seq<Size>, preferredWidth: int, preferredHeight: int): (keys: seq<int>)
    ensures |keys| == |sizes|
    ensures forall i :: 0 <= i < |sizes| ==> keys[i] == Distance(sizes[i], preferredWidth, preferredHeight)
  {
    seq(|sizes|, i requires 0 <= i < |sizes| => Distance(sizes[i], preferredWidth, preferredHeight))
  }

  /** The size `configurePreviewSize` commits, with the distance computed
      without overflow (the intended policy). */
  function PickSize(sizes: seq<Size>, preferredWidth: Int32, preferredHeight: Int32): (r: Option<Size>)
    ensures r.None? <==> |sizes| == 0
    ensures r.Some? ==> r.value.fps == DEFAULT_FPS
    ensures r.Some? ==>
              exists k :: 0 <= k < |sizes| &&
                r.value == sizes[k].(fps := DEFAULT_FPS) &&
                (forall i :: 0 <= i < |sizes| ==>
                   Distance(sizes[k], preferredWidth, preferredHeight) <= Distance(sizes[i], preferredWidth, preferredHeight)) &&
                (forall i :: 0 <= i < k ==>
                   Distance(sizes[k], preferredWidth, preferredHeight) < Distance(sizes[i], preferredWidth, preferredHeight))
  {
    Commit(sizes, DistanceKeys(sizes, preferredWidth, preferredHeight))
  }

  /** The selector exactly as the source writes it, in Kotlin `Int` arithmetic:
      `abs(size.width - preferredWidth) + abs(size.height - preferredHeight)`.
      While the true distance fits in an `Int`, the key is that distance. */
  function KotlinKey(s: Size, preferredWidth: Int32, preferredHeight: Int32): (r: Int32)
    ensures Distance(s, preferredWidth, preferredHeight) <= INT_MAX ==> r == Distance(s, preferredWidth, preferredHeight)
  {
    Wrap(Abs(Wrap(s.width - preferredWidth)) + Abs(Wrap(s.height - preferredHeight)))
  }

  function KotlinKeys(sizes: seq<Size>, preferredWidth: Int32, preferredHeight: Int32): (keys: seq<int>)
    ensures |keys| == |sizes|
    ensures forall i :: 0 <= i < |sizes| ==> keys[i] == KotlinKey(sizes[i], preferredWidth, preferredHeight)
  {
    seq(|sizes|, i requires 0 <= i < |sizes| => KotlinKey(sizes[i], preferredWidth, preferredHeight) as int)
  }

  /** The size `configurePreviewSize` commits as written, with the wrapping key. */
  function PickSizeAsWritten(sizes: seq<Size>, preferredWidth: Int32, preferredHeight: Int32): (r: Option<Size>)
    ensures r.None? <==> |sizes| == 0
    ensures r.Some? ==>
              exists k :: 0 <= k < |sizes| &&
                r.value == sizes[k].(fps := DEFAULT_FPS) &&
                (forall i :: 0 <= i < |sizes| ==>
                   KotlinKey(sizes[k], preferredWidth, preferredHeight) <= KotlinKey(sizes[i], preferredWidth, preferredHeight)) &&
                (forall i :: 0 <= i < k ==>
                   KotlinKey(sizes[k], preferredWidth, preferredHeight) < KotlinKey(sizes[i], preferredWidth, preferredHeight))
  {
    Commit(sizes, KotlinKeys(sizes, preferredWidth, preferredHeight))
  }

  /** When no supported size is 2^31 or more away from the preference, the
      code as written commits the same size as the intended policy. */
  lemma AsWrittenAgreesWithoutOverflow(sizes: seq<Size>, preferredWidth: Int32, preferredHeight: Int32)
    requires forall i :: 0 <= i < |sizes| ==> Distance(sizes[i], preferredWidth, preferredHeight) <= INT_MAX
    ensures PickSizeAsWritten(sizes, preferredWidth, preferredHeight) == PickSize(sizes, preferredWidth, preferredHeight)
  {
    var a := KotlinKeys(sizes, preferredWidth, preferredHeight);
    var b := DistanceKeys(sizes, preferredWidth, preferredHeight);
    assert forall i :: 0 <= i < |sizes| ==> a[i] == b[i];
    assert a == b;
  }

  /** The two keys of the counterexample below, as written and as intended. */
  lemma CounterexampleKeys()
    ensures KotlinKeys([Size(640, 480, 30), Size(1280, 720, 30)], -2147483000, 480) == [2147483640, 2147483256]
    ensures DistanceKeys([Size(640, 480, 30), Size(1280, 720, 30)], -2147483000, 480) == [2147483640, 2147484520]
  {
    var sizes := [Size(640, 480, 30), Size(1280, 720, 30)];
    assert Wrap(640 + 2147483000) == 2147483640;
    assert Wrap(1280 + 2147483000) == -2147483016 && Abs(-2147483016) == 2147483016;
    assert Wrap(2147483016 + 240) == 2147483256;
    assert KotlinKey(sizes[0], -2147483000, 480) == 2147483640;
    assert KotlinKey(sizes[1], -2147483000, 480) == 2147483256;
  }

  /** With the preference width near `Int.MIN_VALUE` the wrapping key makes the
      code commit 1280x720 although 640x480 is nearer. */
  lemma AsWrittenPicksFartherSize()
    ensures PickSizeAsWritten([Size(640, 480, 30), Size(1280, 720, 30)], -2147483000, 480) == Some(Size(1280, 720, 25))
    ensures PickSize([Size(640, 480, 30), Size(1280, 720, 30)], -2147483000, 480) == Some(Size(640, 480, 25))
    ensures Distance(Size(640, 480, 30), -2147483000, 480) < Distance(Size(1280, 720, 30), -2147483000, 480)
  {
    CounterexampleKeys();
    assert FirstMinIndex([2147483640, 2147483256]) == 1;
    assert FirstMinIndex([2147483640, 2147484520]) == 0;
  }

  /** Of 1920x1080, 2592x1944 and 1280x720, 2592x1944 is nearest to 2600x1900. */
  lemma NearestToPreferenceExample()
    ensures PickSize([Size(1920, 1080, 30), Size(2592, 1944, 30), Size(1280, 720, 30)], 2600, 1900)
            == Some(Size(2592, 1944, 25))
  {
  }
}
