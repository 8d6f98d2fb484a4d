/** The clipboard poll of src/index.ts: each tick reads the clipboard text and, when it is
    non-empty and differs from the last text seen, puts a new clip at the front of a history
    capped at 30 clips. This history does not deduplicate. */
module Watcher {
  import opened Wrappers
  import opened Clips

  /** The cap on the poll's history. */
  const MaxHistorySize: nat := 30

  /** The poll records `text` only when it is non-empty (truthy) and not the last text seen. */
  predicate IsNewText(last: string, text: string) {
    text != "" && text != last
  }

  /** The clip the poll creates: no id, no tags. */
  function PolledClip(text: string, now: Date): Clip {
    Clip(None, now, text, [])
  }

  /** The history after `unshift(c)` and, on overflow, one `pop()`: `c` comes first, the
      earlier clips follow in order, and a history within the cap stays within it. */
  function Recorded(history: seq<Clip>, c: Clip): (r: seq<Clip>)
    ensures |r| >= 1 && r[0] == c
    ensures |r| - 1 <= |history| && r[1..] == history[..|r| - 1]
    ensures |history| <= MaxHistorySize ==> |r| <= MaxHistorySize
  {
    var grown := [c] + history;
    if |grown| > MaxHistorySize then grown[..|grown| - 1] else grown
  }

  /** The poll's module state. */
  datatype PollState = PollState(lastClipboardText: string, clipboardHistory: seq<Clip>)

  /** One tick of the poll, given the text the clipboard holds and the time of the tick. */
  function PollStep(s: PollState, text: string, now: Date): PollState {
    if IsNewText(s.lastClipboardText, text) then
      PollState(text, Recorded(s.clipboardHistory, PolledClip(text, now)))
    else
      s
  }

  /** Empty or unchanged text leaves the whole state as it was. */
  lemma PollSkips(s: PollState, text: string, now: Date)
    requires text == "" || text == s.lastClipboardText
    ensures PollStep(s, text, now) == s
  {
  }

  /** New non-empty text becomes the last text seen and the data of a new clip at index 0. */
  lemma PollRecords(s: PollState, text: string, now: Date)
    requires IsNewText(s.lastClipboardText, text)
    ensures PollStep(s, text, now).lastClipboardText == text
    ensures |PollStep(s, text, now).clipboardHistory| > 0
    ensures PollStep(s, text, now).clipboardHistory[0] == PolledClip(text, now)
    ensures PollStep(s, text, now).clipboardHistory[0].data == text
  {
  }

  /** Every tick keeps the history within the cap; a recording tick grows it by one up to the cap. */
  lemma PollBounded(s: PollState, text: string, now: Date)
    requires |s.clipboardHistory| <= MaxHistorySize
    ensures |PollStep(s, text, now).clipboardHistory| <= MaxHistorySize
    ensures IsNewText(s.lastClipboardText, text) ==>
              |PollStep(s, text, now).clipboardHistory|
                == if |s.clipboardHistory| < MaxHistorySize then |s.clipboardHistory| + 1 else MaxHistorySize
  {
  }

  /** On a full history a recording tick drops exactly the last (oldest) clip. */
  lemma PollOverflowDropsOldest(s: PollState, text: string, now: Date)
    requires IsNewText(s.lastClipboardText, text) && |s.clipboardHistory| == MaxHistorySize
    ensures PollStep(s, text, now).clipboardHistory
              == [PolledClip(text, now)] + s.clipboardHistory[..MaxHistorySize - 1]
  {
  }

  /** Behind the new clip, the earlier clips keep their relative order: what follows index 0 is
      the old history, at most its last clip missing. */
  lemma PollKeepsOrder(s: PollState, text: string, now: Date)
    requires IsNewText(s.lastClipboardText, text) && |s.clipboardHistory| <= MaxHistorySize
    ensures var h := PollStep(s, text, now).clipboardHistory;
            |h| >= 1 && |h| - 1 >= |s.clipboardHistory| - 1
            && h[1..] == s.clipboardHistory[..|h| - 1]
  {
    var h := PollStep(s, text, now).clipboardHistory;
    var grown := [PolledClip(text, now)] + s.clipboardHistory;
    if |grown| > MaxHistorySize {
      assert h == grown[..|grown| - 1];
      assert h[1..] == s.clipboardHistory[..|h| - 1];
    } else {
      assert h[1..] == s.clipboardHistory;
    }
  }

  /** The poll does not deduplicate: text `a`, then `b`, then `a` again gives two clips of `a`. */
  lemma PollRepeatsEarlierText(s: PollState, a: string, b: string, t1: Date, t2: Date, t3: Date)
    requires IsNewText(s.lastClipboardText, a) && IsNewText(a, b)
    requires |s.clipboardHistory| + 3 <= MaxHistorySize
    ensures var r := PollStep(PollStep(PollStep(s, a, t1), b, t2), a, t3);
            |r.clipboardHistory| == |s.clipboardHistory| + 3
            && r.clipboardHistory[..3] == [PolledClip(a, t3), PolledClip(b, t2), PolledClip(a, t1)]
            && r.lastClipboardText == a
  {
    var s1 := PollStep(s, a, t1);
    assert s1.clipboardHistory == [PolledClip(a, t1)] + s.clipboardHistory;
    var s2 := PollStep(s1, b, t2);
    assert s2.clipboardHistory == [PolledClip(b, t2)] + s1.clipboardHistory;
    assert IsNewText(b, a);
    var s3 := PollStep(s2, a, t3);
    assert s3.clipboardHistory == [PolledClip(a, t3)] + s2.clipboardHistory;
  }

  /** The watcher's state: the last text seen and the module-level clip history. */
  class ClipboardWatcher {
    var lastClipboardText: string
    var clipboardHistory: seq<Clip>

    /** The state as a value. */
    ghost function State(): PollState
      reads this
    {
      PollState(lastClipboardText, clipboardHistory)
    }

    /** The history never exceeds the cap. */
    ghost predicate Valid()
      reads this
    {
      |clipboardHistory| <= MaxHistorySize
    }

    /** Starts watching with an empty history, taking the clipboard's current text as seen. */
    constructor(initialText: string)
      ensures Valid()
      ensures lastClipboardText == initialText && clipboardHistory == []
    {
      lastClipboardText := initialText;
      clipboardHistory := [];
    }

    /** One tick of the interval callback, given the text read from the clipboard and the time. */
    method Poll(currentText: string, now: Date)
      requires Valid()
      modifies this
      ensures Valid()
      ensures State() == PollStep(old(State()), currentText, now)
    {
      if currentText != "" && currentText != lastClipboardText {
        lastClipboardText := currentText;
        var clip := Clip(None, now, currentText, []);
        clipboardHistory := [clip] + clipboardHistory;
        if |clipboardHistory| > MaxHistorySize {
          clipboardHistory := clipboardHistory[..|clipboardHistory| - 1];
        }
      }
    }
  }
}
