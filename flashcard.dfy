/**
 * The flashcard of a study session: click to flip, then swipe or press a button
 * to report the word as learning or mastered; the speaker icon plays the word's
 * recording or, failing that, speaks the term.
 *
 * A swipe reports its status only after a delay; the model keeps the reports
 * already scheduled in `pending` and delivers the oldest one in `TimeoutElapsed`.
 * What the card tells its parent (`onStatusChange`, `onPrev`) and the speech
 * engine (`speak`) is recorded in `reports`, `prevRequests` and `spoken`.
 */
module Flashcard {
  import opened Optional
  import opened Types

  /** How far (in pixels) the card must be dragged to count as a swipe. */
  const Threshold: real := 100.0

  /** Where a swiped card flies off to, to the right (positive) or left. */
  const ExitDistance: int := 1000

  /** A drag that ends more than the threshold to the right masters the word, to the left sends it back. */
  function DragDecision(offsetX: real): (r: Option<CardStatus>)
    ensures r == Some(Mastered) <==> offsetX > Threshold
    ensures r == Some(Learning) <==> offsetX < -Threshold
    ensures r == None <==> -Threshold <= offsetX <= Threshold
    ensures r != Some(New)
  {
    if offsetX > Threshold then Some(Mastered)
    else if offsetX < -Threshold then Some(Learning)
    else None
  }

  /** Swiping is symmetric: the mirrored drag gives the opposite report. */
  lemma DragDecisionMirrored(offsetX: real)
    ensures DragDecision(-offsetX) ==
      match DragDecision(offsetX)
      case Some(Mastered) => Some(Learning)
      case Some(Learning) => Some(Mastered)
      case _ => None
  {
  }

  /** A longer drag to the right never reports less than a shorter one. */
  lemma DragDecisionMonotone(x: real, y: real)
    requires x <= y
    ensures DragDecision(x) == Some(Mastered) ==> DragDecision(y) == Some(Mastered)
    ensures DragDecision(y) == Some(Learning) ==> DragDecision(x) == Some(Learning)
  {
  }

  /** The direction the card flies off in for a report. */
  function ExitFor(s: CardStatus): (x: int)
    ensures s == Mastered ==> x == ExitDistance
    ensures s != Mastered ==> x == -ExitDistance
  {
    if s == Mastered then ExitDistance else -ExitDistance
  }

  const AudioDir: string := "/audio/words/"
  const AudioExt: string := ".mp3"

  /** What the speaker icon does: play a recording, or speak a text. */
  datatype AudioPlan = PlayFile(url: string) | Speak(text: string)

  /** A recording is used when the card names a non-empty one; an empty name is falsy and falls back to speech. */
  function AudioPlanFor(card: VocabCard): (p: AudioPlan)
    ensures p.PlayFile? <==> card.audio.Some? && card.audio.value != ""
    ensures p.Speak? ==> p.text == card.term
  {
    match card.audio
    case Some(a) => if a != "" then PlayFile(AudioDir + a + AudioExt) else Speak(card.term)
    case None => Speak(card.term)
  }

  /** The recording's name between the directory and the extension. */
  function FileNameOf(url: string): string {
    if |url| >= |AudioDir| + |AudioExt| then url[|AudioDir|..|url| - |AudioExt|] else ""
  }

  /** The played file is the card's own recording: its name can be read back from the url. */
  lemma AudioUrlNamesRecording(card: VocabCard)
    requires card.audio.Some? && card.audio.value != ""
    ensures AudioPlanFor(card).url[..|AudioDir|] == AudioDir
    ensures FileNameOf(AudioPlanFor(card).url) == card.audio.value
  {
    var a := card.audio.value;
    var url := AudioDir + a + AudioExt;
    assert url[..|AudioDir|] == AudioDir;
    assert url[|AudioDir|..|url| - |AudioExt|] == a;
  }

  class FlashcardView {
    const card: VocabCard
    var isFlipped: bool
    var exitX: int
    var isAudioPlaying: bool
    /** The url of the current audio element, if one was created. */
    var audioSrc: Option<string>
    /** Swipe reports scheduled but not yet delivered, oldest first. */
    var pending: seq<CardStatus>
    /** Every status reported to the parent, in order. */
    var reports: seq<CardStatus>
    var prevRequests: nat
    /** Every text handed to the speech engine, in order. */
    var spoken: seq<string>

    /**
     * The card sits at rest unless a swipe is on its way: then it is off in the
     * direction of the latest scheduled report.  Reports are learning or mastered,
     * never new, and audio plays only from an element that exists.
     */
    predicate Valid()
      reads this
    {
      (exitX == 0 || (|pending| > 0 && exitX == ExitFor(pending[|pending| - 1]))) &&
      (forall i :: 0 <= i < |pending| ==> pending[i] != New) &&
      (forall i :: 0 <= i < |reports| ==> reports[i] != New) &&
      (isAudioPlaying ==> audioSrc.Some?)
    }

    constructor (card: VocabCard)
      ensures this.card == card && Valid()
      ensures !isFlipped && exitX == 0 && !isAudioPlaying && audioSrc == None
      ensures pending == [] && reports == [] && prevRequests == 0 && spoken == []
    {
      this.card := card;
      isFlipped, exitX, isAudioPlaying, audioSrc := false, 0, false, None;
      pending, reports, prevRequests, spoken := [], [], 0, [];
    }

    /** A click turns the card to its back (the definition); a card already turned ignores clicks. */
    method Click()
      requires Valid()
      modifies this
      ensures isFlipped && Valid()
      ensures exitX == old(exitX) && isAudioPlaying == old(isAudioPlaying) && audioSrc == old(audioSrc)
      ensures pending == old(pending) && reports == old(reports)
      ensures prevRequests == old(prevRequests) && spoken == old(spoken)
    {
      if !isFlipped {
        isFlipped := true;
      }
    }

    /**
     * The end of a drag.  Only a flipped card can be dragged; a swipe sends the card
     * off and schedules its report, a short drag changes nothing.
     */
    method DragEnd(offsetX: real)
      requires Valid()
      modifies this
      ensures var d := DragDecision(offsetX);
        if old(isFlipped) && d.Some? then
          exitX == ExitFor(d.value) && pending == old(pending) + [d.value]
        else
          exitX == old(exitX) && pending == old(pending)
      ensures isFlipped == old(isFlipped) && isAudioPlaying == old(isAudioPlaying) && audioSrc == old(audioSrc)
      ensures reports == old(reports) && prevRequests == old(prevRequests) && spoken == old(spoken)
      ensures Valid()
    {
      if !isFlipped {
        return;
      }
      var d := DragDecision(offsetX);
      if d.Some? {
        exitX := ExitFor(d.value);
        pending := pending + [d.value];
      }
    }

    /** The delay of the oldest scheduled swipe runs out: its status is reported, and the card comes back to rest with its front showing. */
    method TimeoutElapsed()
      requires Valid() && |pending| > 0
      modifies this
      ensures reports == old(reports) + [old(pending)[0]] && pending == old(pending)[1..]
      ensures exitX == 0 && !isFlipped
      ensures isAudioPlaying == old(isAudioPlaying) && audioSrc == old(audioSrc)
      ensures prevRequests == old(prevRequests) && spoken == old(spoken)
      ensures Valid()
    {
      reports := reports + [pending[0]];
      pending := pending[1..];
      exitX := 0;
      isFlipped := false;
    }

    /** "Previous Word": shown only on a flipped card and disabled when there is nothing to go back to. */
    method PreviousWord(canGoBack: bool)
      requires Valid()
      modifies this
      ensures old(isFlipped) && canGoBack ==> !isFlipped && prevRequests == old(prevRequests) + 1
      ensures !(old(isFlipped) && canGoBack) ==> isFlipped == old(isFlipped) && prevRequests == old(prevRequests)
      ensures exitX == old(exitX) && pending == old(pending) && reports == old(reports)
      ensures isAudioPlaying == old(isAudioPlaying) && audioSrc == old(audioSrc) && spoken == old(spoken)
      ensures Valid()
    {
      if isFlipped && canGoBack {
        isFlipped := false;
        prevRequests := prevRequests + 1;
      }
    }

    /** Both report buttons: shown only on a flipped card; they turn it back to the front and report at once. */
    method ReportButton(status: CardStatus)
      requires Valid() && status != New
      modifies this
      ensures old(isFlipped) ==> !isFlipped && reports == old(reports) + [status]
      ensures !old(isFlipped) ==> !isFlipped && reports == old(reports)
      ensures exitX == old(exitX) && pending == old(pending) && prevRequests == old(prevRequests)
      ensures isAudioPlaying == old(isAudioPlaying) && audioSrc == old(audioSrc) && spoken == old(spoken)
      ensures Valid()
    {
      if isFlipped {
        isFlipped := false;
        reports := reports + [status];
      }
    }

    /** "Next Word" reports the word as still learning. */
    method NextWord()
      requires Valid()
      modifies this
      ensures old(isFlipped) ==> !isFlipped && reports == old(reports) + [Learning]
      ensures !old(isFlipped) ==> !isFlipped && reports == old(reports)
      ensures exitX == old(exitX) && pending == old(pending) && prevRequests == old(prevRequests)
      ensures isAudioPlaying == old(isAudioPlaying) && audioSrc == old(audioSrc) && spoken == old(spoken)
      ensures Valid()
    {
      ReportButton(Learning);
    }

    /** "I Know This" reports the word as mastered. */
    method KnowThis()
      requires Valid()
      modifies this
      ensures old(isFlipped) ==> !isFlipped && reports == old(reports) + [Mastered]
      ensures !old(isFlipped) ==> !isFlipped && reports == old(reports)
      ensures exitX == old(exitX) && pending == old(pending) && prevRequests == old(prevRequests)
      ensures isAudioPlaying == old(isAudioPlaying) && audioSrc == old(audioSrc) && spoken == old(spoken)
      ensures Valid()
    {
      ReportButton(Mastered);
    }

    /** The speaker icon: play the card's recording if it names one, otherwise speak the term. */
    method PlayAudio()
      requires Valid()
      modifies this
      ensures match AudioPlanFor(card)
        case PlayFile(url) => audioSrc == Some(url) && isAudioPlaying && spoken == old(spoken)
        case Speak(text) =>
          (audioSrc == old(audioSrc) && isAudioPlaying == old(isAudioPlaying) && spoken == old(spoken) + [text])
      ensures isFlipped == old(isFlipped) && exitX == old(exitX)
      ensures pending == old(pending) && reports == old(reports) && prevRequests == old(prevRequests)
      ensures Valid()
    {
      match AudioPlanFor(card)
      case PlayFile(url) =>
        audioSrc := Some(url);
        isAudioPlaying := true;
      case Speak(text) =>
        spoken := spoken + [text];
    }

    /** The recording finished. */
    method AudioEnded()
      requires Valid()
      modifies this
      ensures !isAudioPlaying && audioSrc == old(audioSrc) && spoken == old(spoken)
      ensures isFlipped == old(isFlipped) && exitX == old(exitX)
      ensures pending == old(pending) && reports == old(reports) && prevRequests == old(prevRequests)
      ensures Valid()
    {
      isAudioPlaying := false;
    }

    /** The recording could not be loaded or played: fall back to speaking the term. */
    method AudioFailed()
      requires Valid()
      modifies this
      ensures !isAudioPlaying && audioSrc == old(audioSrc) && spoken == old(spoken) + [card.term]
      ensures isFlipped == old(isFlipped) && exitX == old(exitX)
      ensures pending == old(pending) && reports == old(reports) && prevRequests == old(prevRequests)
      ensures Valid()
    {
      isAudioPlaying := false;
      spoken := spoken + [card.term];
    }
  }
}
