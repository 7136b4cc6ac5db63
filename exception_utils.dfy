/** The stack-trace text the bot posts when a definition fails: the
    throwable's class and message, then at most fifteen frames, cut short at
    the first frame from JDA's annotated event manager. */
module ExceptionUtils {

  import opened Wrappers
  import opened Strings

  /** One stack frame: its declaring class and its `toString()` text. */
  datatype Frame = Frame(className: string, text: string)

  /** A throwable: its class name, its message (Java's `null` as `None`) and
      its stack trace. */
  datatype ThrowableInfo = ThrowableInfo(className: string, message: Option<string>, frames: seq<Frame>)

  const MaxFrames: nat := 15
  const JdaPrefix: string := "net.dv8tion.jda.core.hooks.AnnotatedEventManager"
  const OmitMarker: string := "\n\n<... omitting jda trace ...>"

  /** `StringBuilder.append(String)` prints a `null` message as "null". */
  function Header(t: ThrowableInfo): string {
    t.className + ": " + (match t.message case None => "null" case Some(m) => m)
  }

  predicate IsJdaFrame(f: Frame) {
    StartsWith(f.className, JdaPrefix)
  }

  function AtLine(f: Frame): string {
    "\n\tat " + f.text
  }

  /** The frame lines the loop appends with `budget` iterations left. */
  function FramesText(frames: seq<Frame>, budget: nat): string {
    if |frames| == 0 || budget == 0 then ""
    else if IsJdaFrame(frames[0]) then OmitMarker
    else AtLine(frames[0]) + FramesText(frames[1..], budget - 1)
  }

  /** The whole text `getTrace` builds. */
  function Trace(t: ThrowableInfo): string {
    Header(t) + FramesText(t.frames, MaxFrames)
  }

  /** `getTrace(throwable)`. */
  method GetTrace(t: ThrowableInfo) returns (r: string)
    ensures r == Trace(t)
  {
    r := Header(t);
    var i := 0;
    while i < |t.frames| && i < MaxFrames
      invariant 0 <= i <= |t.frames| && i <= MaxFrames
      invariant forall j :: 0 <= j < i ==> !IsJdaFrame(t.frames[j])
      invariant r + FramesText(t.frames[i..], MaxFrames - i) == Trace(t)
    {
      var element := t.frames[i];
      assert t.frames[i..][1..] == t.frames[i + 1..];
      if IsJdaFrame(element) {
        r := r + OmitMarker;
        break;
      }
      r := r + AtLine(element);
      i := i + 1;
    }
  }

  // ---------------------------------------------------------------------
  // The shape of a trace

  /** The position of the first JDA frame, or the number of frames. */
  function FirstJda(frames: seq<Frame>): (k: nat)
    ensures k <= |frames|
    ensures forall j :: 0 <= j < k ==> !IsJdaFrame(frames[j])
    ensures k < |frames| ==> IsJdaFrame(frames[k])
  {
    if |frames| == 0 then 0
    else if IsJdaFrame(frames[0]) then 0
    else 1 + FirstJda(frames[1..])
  }

  /** The lines of a run of frames, in order. */
  function AtLines(frames: seq<Frame>): string {
    if |frames| == 0 then "" else AtLine(frames[0]) + AtLines(frames[1..])
  }

  function Min(a: nat, b: nat): nat {
    if a <= b then a else b
  }

  /** A trace lists the frames before the first JDA frame, at most fifteen of
      them, and ends with the omission marker exactly when a JDA frame lies
      within the first fifteen. */
  lemma {:induction false} FramesTextClosedForm(frames: seq<Frame>, budget: nat)
    ensures FramesText(frames, budget)
         == AtLines(frames[..Min(FirstJda(frames), budget)])
          + (if FirstJda(frames) < |frames| && FirstJda(frames) < budget then OmitMarker else "")
  {
    if |frames| == 0 || budget == 0 {
      assert frames[..0] == [];
    } else if IsJdaFrame(frames[0]) {
      assert frames[..0] == [];
    } else {
      FramesTextClosedForm(frames[1..], budget - 1);
      var k := Min(FirstJda(frames[1..]), budget - 1);
      assert frames[..k + 1][0] == frames[0];
      assert frames[..k + 1][1..] == frames[1..][..k];
    }
  }

  lemma TraceClosedForm(t: ThrowableInfo)
    ensures Trace(t)
         == Header(t) + AtLines(t.frames[..Min(FirstJda(t.frames), MaxFrames)])
          + (if FirstJda(t.frames) < |t.frames| && FirstJda(t.frames) < MaxFrames then OmitMarker else "")
  {
    FramesTextClosedForm(t.frames, MaxFrames);
  }

  /** Frames past the fifteenth never show up. */
  lemma {:induction false} FramesTextIgnoresTail(frames: seq<Frame>, more: seq<Frame>, budget: nat)
    requires |frames| >= budget
    ensures FramesText(frames + more, budget) == FramesText(frames, budget)
  {
    if budget > 0 {
      assert (frames + more)[0] == frames[0];
      assert (frames + more)[1..] == frames[1..] + more;
      FramesTextIgnoresTail(frames[1..], more, budget - 1);
    }
  }

  /** A throwable with no message and no frames. */
  lemma TraceOfBare(c: string)
    ensures Trace(ThrowableInfo(c, None, [])) == c + ": null"
  { }

  /** A JDA frame first: only the marker follows the header. */
  lemma TraceStopsAtJda(t: ThrowableInfo)
    requires |t.frames| > 0 && IsJdaFrame(t.frames[0])
    ensures Trace(t) == Header(t) + OmitMarker
  { }
}
