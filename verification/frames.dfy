/**
 * Call-site resolution: picking one frame out of the call stack the runtime
 * reports. The stack is an input here, listed innermost first, exactly as
 * `runtime.Callers(0, ...)` would list it from inside `getFrame`: index 0 is
 * `runtime.Callers` itself, index 1 is `getFrame`, and so on outwards.
 */
module Frames {

  /** The two fields of a runtime frame that a log line prints. */
  datatype Frame = Frame(funcName: string, line: int)

  /** The frame reported when the wanted one is not available: function "unknown", line 0. */
  const UnknownFrame: Frame := Frame("unknown", 0)

  /**
   * Returns the frame `skipFrames + 2` places out from the innermost one
   * (skipping the runtime's own frame and this routine's), or UnknownFrame
   * when the stack is not that deep.
   */
  method GetFrame(stack: seq<Frame>, skipFrames: nat) returns (frame: Frame)
    ensures skipFrames + 2 < |stack| ==> frame == stack[skipFrames + 2]
    ensures skipFrames + 2 >= |stack| ==> frame == UnknownFrame
  {
    var targetFrameIndex := skipFrames + 2;
    // The program-counter buffer has room for targetFrameIndex + 2 entries.
    var n := if |stack| < targetFrameIndex + 2 then |stack| else targetFrameIndex + 2;
    var captured := stack[..n];

    frame := UnknownFrame;
    if n > 0 {
      var more, frameIndex := true, 0;
      while more && frameIndex <= targetFrameIndex
        invariant 0 <= frameIndex <= n
        invariant more <==> frameIndex < n
        invariant frameIndex <= targetFrameIndex ==> frame == UnknownFrame
        invariant frameIndex > targetFrameIndex ==> frame == captured[targetFrameIndex]
      {
        // One step of the frame iterator: the next frame, and whether another follows.
        var frameCandidate := captured[frameIndex];
        more := frameIndex + 1 < n;
        if frameIndex == targetFrameIndex {
          frame := frameCandidate;
        }
        frameIndex := frameIndex + 1;
      }
    }
  }
}
