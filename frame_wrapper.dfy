/** The frame record passed between the native stages (`FrameWrapper`). It
    holds a borrowed buffer owned by Electron, which it never frees, and an
    owned buffer allocated by the native code, which it frees at most once.
    Pointers are modelled as numbers, 0 standing for null. */
module Frames {
  import opened Wrappers
  import opened Ints

  class FrameWrapper {
    var number: uint32
    var timestampMs: uint64
    var fps: uint32

    /** The borrowed buffer: pointer, length and dimensions. */
    var electronFrame: nat
    var electronLength: nat
    var electronWidth: uint32
    var electronHeight: uint32

    /** The owned buffer: pointer, contents, length and dimensions. */
    var nativeFrame: nat
    var nativeBytes: seq<bv8>
    var nativeLength: nat
    var nativeWidth: uint32
    var nativeHeight: uint32

    /** How many times the owned buffer has been freed. */
    ghost var nativeFrees: nat

    /** The owned buffer is freed at most once, and a record that still holds
        an owned pointer has not freed it. */
    ghost predicate Valid()
      reads this
    {
      && nativeFrees <= 1
      && (nativeFrame != 0 ==> nativeFrees == 0)
    }

    /** The constructor: the number is stored and every other field is zero. */
    constructor (num: uint32)
      ensures Valid() && nativeFrees == 0
      ensures number == num && timestampMs == 0 && fps == 0
      ensures electronFrame == 0 && electronLength == 0 && electronWidth == 0 && electronHeight == 0
      ensures nativeFrame == 0 && nativeBytes == [] && nativeLength == 0
      ensures nativeWidth == 0 && nativeHeight == 0
    {
      number, timestampMs, fps := num, 0, 0;
      electronFrame, electronLength, electronWidth, electronHeight := 0, 0, 0, 0;
      nativeFrame, nativeBytes, nativeLength, nativeWidth, nativeHeight := 0, [], 0, 0, 0;
      nativeFrees := 0;
    }

    /** Attach a freshly allocated owned buffer (pointer `p`, non-null). */
    method AttachNative(p: nat, bytes: seq<bv8>, w: uint32, h: uint32)
      requires Valid() && nativeFrame == 0 && nativeFrees == 0 && p != 0
      modifies this
      ensures Valid()
      ensures nativeFrame == p && nativeBytes == bytes && nativeLength == |bytes|
      ensures nativeWidth == w && nativeHeight == h && nativeFrees == 0
      ensures number == old(number) && timestampMs == old(timestampMs) && fps == old(fps)
      ensures electronFrame == old(electronFrame) && electronLength == old(electronLength)
      ensures electronWidth == old(electronWidth) && electronHeight == old(electronHeight)
    {
      nativeFrame, nativeBytes, nativeLength := p, bytes, |bytes|;
      nativeWidth, nativeHeight := w, h;
    }

    /** Free the owned buffer if there is one and null the pointer: the body of
        the destructor, and what a consumer does before deleting the record.
        Returns the pointer freed, if any. The borrowed buffer is never freed. */
    method FreeNative() returns (freed: Option<nat>)
      requires Valid()
      modifies this
      ensures Valid()
      ensures freed == (if old(nativeFrame) != 0 then Some(old(nativeFrame)) else None)
      ensures nativeFrame == 0
      ensures nativeFrees == old(nativeFrees) + (if freed.Some? then 1 else 0)
      ensures number == old(number) && timestampMs == old(timestampMs) && fps == old(fps)
      ensures electronFrame == old(electronFrame) && electronLength == old(electronLength)
      ensures electronWidth == old(electronWidth) && electronHeight == old(electronHeight)
    {
      if nativeFrame != 0 {
        freed := Some(nativeFrame);
        nativeFrame := 0;
        nativeFrees := nativeFrees + 1;
      } else {
        freed := None;
      }
    }
  }

  /** A consumer that frees the owned buffer and then deletes the record: the
      destructor finds a null pointer, so the buffer is freed exactly once. */
  method ReleaseThenDestroy(w: FrameWrapper) returns (first: Option<nat>, second: Option<nat>)
    requires w.Valid()
    modifies w
    ensures first == (if old(w.nativeFrame) != 0 then Some(old(w.nativeFrame)) else None)
    ensures second == None
    ensures w.Valid() && w.nativeFrees <= 1
  {
    first := w.FreeNative();
    second := w.FreeNative();
  }
}
