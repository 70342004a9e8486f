/**
 * floatings/manager/FloatingStateManager.kt: the session state machine of the
 * overlay. One current state; `changeState` commits a move only when the
 * target's kind is an allowed successor of the current state, and every entry
 * point first checks (`stateIn`) that the current state is one it may start
 * from, doing nothing otherwise. A capture runs capture, recognition and
 * translation one after the other; their outcomes are inputs here, and each
 * coroutine launch runs to completion before the next step.
 */
module FloatingStateManager {
  import opened Wrappers
  import opened Errors
  import opened Graphics
  import opened Recognition
  import opened TranslationTypes
  import Constants

  datatype State =
    | Idle
    | ScreenCircling
    | ScreenCircled
    | ScreenCapturing
    | TextRecognizing
    | TextTranslating
    | ResultDisplaying
    | ErrorDisplaying(error: string)

  /** The class of a state, what `changeState` and `stateIn` compare. */
  datatype StateKind =
    | IdleKind
    | ScreenCirclingKind
    | ScreenCircledKind
    | ScreenCapturingKind
    | TextRecognizingKind
    | TextTranslatingKind
    | ResultDisplayingKind
    | ErrorDisplayingKind

  function KindOf(s: State): StateKind
  {
    match s
    case Idle => IdleKind
    case ScreenCircling => ScreenCirclingKind
    case ScreenCircled => ScreenCircledKind
    case ScreenCapturing => ScreenCapturingKind
    case TextRecognizing => TextRecognizingKind
    case TextTranslating => TextTranslatingKind
    case ResultDisplaying => ResultDisplayingKind
    case ErrorDisplaying(_) => ErrorDisplayingKind
  }

  /** The allowed-successor table of `changeState`. */
  function AllowedNext(k: StateKind): set<StateKind>
  {
    match k
    case IdleKind => {ScreenCirclingKind}
    case ScreenCirclingKind => {IdleKind, ScreenCircledKind}
    case ScreenCircledKind => {IdleKind, ScreenCapturingKind}
    case ScreenCapturingKind => {IdleKind, TextRecognizingKind, ErrorDisplayingKind}
    case TextRecognizingKind => {IdleKind, TextTranslatingKind, ErrorDisplayingKind}
    case TextTranslatingKind => {ResultDisplayingKind, ErrorDisplayingKind, IdleKind}
    case ResultDisplayingKind => {IdleKind, TextTranslatingKind}
    case ErrorDisplayingKind => {IdleKind}
  }

  predicate CanMove(from: State, to: State)
  {
    KindOf(to) in AllowedNext(KindOf(from))
  }

  /** No kind lists itself, every kind but idle may go back to idle, and idle only starts circling. */
  lemma AllowedNextShape(k: StateKind)
    ensures k !in AllowedNext(k)
    ensures k != IdleKind ==> IdleKind in AllowedNext(k)
    ensures AllowedNext(IdleKind) == {ScreenCirclingKind}
  {
  }

  /** No state lists itself, so a committed move always changes the kind. */
  lemma NoSelfTransition(s: State, t: State)
    ensures CanMove(s, t) ==> KindOf(s) != KindOf(t)
  {
  }

  /** Only kinds are compared: an error state with any message is accepted where one is. */
  lemma ErrorMessageIgnored(s: State, m1: string, m2: string)
    ensures CanMove(s, ErrorDisplaying(m1)) == CanMove(s, ErrorDisplaying(m2))
    ensures CanMove(ErrorDisplaying(m1), s) == CanMove(ErrorDisplaying(m2), s)
  {
  }

  /** Every state but Idle may return to Idle; Idle may only start a selection. */
  lemma IdleReachable(s: State)
    ensures s != Idle ==> CanMove(s, Idle)
    ensures forall t :: CanMove(Idle, t) <==> t == ScreenCircling
  {
  }

  /** The states a sequence of committed moves passes through is legal when each move is allowed. */
  predicate LegalPath(from: State, path: seq<State>)
    decreases path
  {
    path == [] || (CanMove(from, path[0]) && LegalPath(path[0], path[1..]))
  }

  /** Where a path ends. */
  function Final(from: State, path: seq<State>): State
  {
    if path == [] then from else path[|path| - 1]
  }

  /** Legal paths compose. */
  lemma {:induction false} LegalPathConcat(from: State, p: seq<State>, q: seq<State>)
    requires LegalPath(from, p) && LegalPath(Final(from, p), q)
    ensures LegalPath(from, p + q)
    ensures Final(from, p + q) == Final(Final(from, p), q)
    decreases p
  {
    if p == [] {
      assert p + q == q;
    } else {
      assert (p + q)[1..] == p[1..] + q;
      assert Final(p[0], p[1..]) == Final(from, p);
      LegalPathConcat(p[0], p[1..], q);
    }
  }

  /** The result shown by the result view: the sealed class `Result`. */
  datatype DisplayedResult =
    | Translated(ocrText: string, boundingBoxes: seq<Rect>, translatedText: string, providerType: ProviderType)
    | SourceLangNotSupport(ocrText: string, boundingBoxes: seq<Rect>, providerType: ProviderType)
    | OCROnly(ocrText: string, boundingBoxes: seq<Rect>)

  /** A screenshot crop; `id` tells bitmaps apart. */
  datatype Bitmap = Bitmap(id: nat)

  /** `sub` occurs in `s` (Kotlin `contains`). */
  predicate Contains(s: string, sub: string)
  {
    sub <= s || (s != [] && Contains(s[1..], sub))
  }

  /** The message for a failed screen capture. */
  function CaptureErrorMessage(e: Failure): (m: string)
    ensures e.kind == TimeoutFailure ==> m == "@string/error_capture_screen_timeout"
    ensures e.kind != TimeoutFailure && e.message.Some? ==> m == e.message.value
    ensures e.kind != TimeoutFailure && e.message.None? ==> m == "@string/error_unknown_error_capturing_screen"
  {
    if e.kind == TimeoutFailure then "@string/error_capture_screen_timeout"
    else e.message.GetOr("@string/error_unknown_error_capturing_screen")
  }

  /** The message for a failed recognition; the engine's too-small-image error gets its own. */
  function RecognitionErrorMessage(e: Failure): (m: string)
    ensures e.message.Some? && Contains(e.message.value, Constants.ERROR_INPUT_IMAGE_IS_TOO_SMALL) ==>
      m == "@string/error_selected_area_too_small"
    ensures e.message.Some? && !Contains(e.message.value, Constants.ERROR_INPUT_IMAGE_IS_TOO_SMALL) ==>
      m == e.message.value
    ensures e.message.None? ==> m == "@string/error_an_unknown_error_found_while_recognition_text"
  {
    match e.message
    case Some(msg) =>
      if Contains(msg, Constants.ERROR_INPUT_IMAGE_IS_TOO_SMALL) then "@string/error_selected_area_too_small" else msg
    case None => "@string/error_an_unknown_error_found_while_recognition_text"
  }

  /** The message for a `TranslationFailed` result: a connection problem, or the error's own message. */
  function TranslationFailedMessage(e: Failure): (m: string)
    ensures e.kind == IOFailure ==> m == "@string/error_can_not_connect_to_translation_server"
    ensures e.kind != IOFailure ==> m == e.message.GetOr("@string/error_unknown")
  {
    if e.kind == IOFailure then "@string/error_can_not_connect_to_translation_server"
    else e.message.GetOr("@string/error_unknown")
  }

  /** The message when the translator itself throws. */
  function TranslationThrownMessage(e: Failure): (m: string)
    ensures m == e.message.GetOr("Unknown error found while translating")
    ensures e.message.None? ==> m == "Unknown error found while translating"
  {
    e.message.GetOr("Unknown error found while translating")
  }

  /** What the result view shows for a translation result, if anything. */
  function ShownResult(rr: RecognitionResult, t: TranslationResult): (r: Option<DisplayedResult>)
    ensures r.Some? <==> t.TranslatedResult? || t.SourceLangNotSupport? || t.OCROnlyResult?
    ensures r.Some? ==> r.value.ocrText == rr.result && r.value.boundingBoxes == rr.boundingBoxes
    ensures t.TranslatedResult? ==> r == Some(Translated(rr.result, rr.boundingBoxes, t.result, t.providerType))
  {
    match t
    case TranslatedResult(text, p) => Some(Translated(rr.result, rr.boundingBoxes, text, p))
    case SourceLangNotSupport(p) => Some(DisplayedResult.SourceLangNotSupport(rr.result, rr.boundingBoxes, p))
    case OCROnlyResult => Some(DisplayedResult.OCROnly(rr.result, rr.boundingBoxes))
    case TranslationFailed(_) => None
    case OuterTranslatorLaunched => None
  }

  /** The error a translation ends with, if any. */
  function TranslationError(translation: Result<TranslationResult, Failure>): (r: Option<string>)
  {
    match translation
    case Err(e) => Some(TranslationThrownMessage(e))
    case Ok(TranslationFailed(e)) => Some(TranslationFailedMessage(e))
    case Ok(_) => None
  }

  /**
   * What a step leaves behind: the states it commits, the error dialogs and
   * results it shows, and the bitmaps it recycles, in order.
   */
  datatype Effects = Effects(states: seq<State>, errors: seq<string>, results: seq<DisplayedResult>, recycled: seq<Bitmap>)
  {
    /** This step followed by `next`. */
    function Then(next: Effects): Effects
    {
      Effects(states + next.states, errors + next.errors, results + next.results, recycled + next.recycled)
    }
  }

  const NO_EFFECTS := Effects([], [], [], [])

  function Moves(states: seq<State>): Effects
  {
    Effects(states, [], [], [])
  }

  /** `backToIdle`: a move to Idle unless already there, so a second call commits nothing. */
  function BackToIdleEffects(s: State): Effects
  {
    Moves(if s == Idle then [] else [Idle])
  }

  /** `backToIdle` reaches Idle by a legal move, shows and recycles nothing, and does nothing from Idle. */
  lemma BackToIdleEffectsLegal(s: State)
    ensures var e := BackToIdleEffects(s);
      LegalPath(s, e.states) && Final(s, e.states) == Idle
      && (s == Idle ==> e == NO_EFFECTS)
      && e.errors == [] && e.results == [] && e.recycled == []
  {
    if s != Idle {
      IdleReachable(s);
    }
  }

  /** `showError` from state `s`: the error state if allowed, the dialog, then back to Idle. */
  function ShowErrorEffects(s: State, message: string): Effects
  {
    if CanMove(s, ErrorDisplaying(message)) then
      Effects([ErrorDisplaying(message)], [message], [], []).Then(BackToIdleEffects(ErrorDisplaying(message)))
    else
      Effects([], [message], [], []).Then(BackToIdleEffects(s))
  }

  /**
   * `showError` shows exactly its one dialog and ends in Idle by legal moves,
   * passing through the error state where that move is allowed.
   */
  lemma ShowErrorEffectsLegal(s: State, message: string)
    ensures var e := ShowErrorEffects(s, message);
      e.errors == [message] && e.results == [] && e.recycled == []
      && LegalPath(s, e.states) && Final(s, e.states) == Idle
      && (CanMove(s, ErrorDisplaying(message)) ==> e.states == [ErrorDisplaying(message), Idle])
  {
    if CanMove(s, ErrorDisplaying(message)) {
      var back := BackToIdleEffects(ErrorDisplaying(message));
      BackToIdleEffectsLegal(ErrorDisplaying(message));
      assert back.states == [Idle];
      LegalCons(s, ErrorDisplaying(message), back.states);
    } else {
      BackToIdleEffectsLegal(s);
      assert ShowErrorEffects(s, message).states == BackToIdleEffects(s).states;
    }
  }

  /** A legal path after an allowed first move. */
  lemma LegalCons(from: State, first: State, rest: seq<State>)
    requires CanMove(from, first) && LegalPath(first, rest)
    ensures LegalPath(from, [first] + rest)
    ensures Final(from, [first] + rest) == Final(first, rest)
  {
    assert ([first] + rest)[1..] == rest;
  }

  /** What `startTranslation` does once in TextTranslating: the result, an error, or Idle. */
  function TranslationOutcome(rr: RecognitionResult, translation: Result<TranslationResult, Failure>): Effects
  {
    match translation
    case Err(err) => ShowErrorEffects(TextTranslating, TranslationThrownMessage(err))
    case Ok(TranslationFailed(err)) => ShowErrorEffects(TextTranslating, TranslationFailedMessage(err))
    case Ok(OuterTranslatorLaunched) => BackToIdleEffects(TextTranslating)
    case Ok(t) => Effects([ResultDisplaying], [], [ShownResult(rr, t).value], [])
  }

  /**
   * After TextTranslating the moves are legal and end showing a result exactly
   * when the translation gives one to show, and otherwise in Idle; the dialog
   * shown is the translation's error, if any.
   */
  lemma TranslationOutcomeLegal(rr: RecognitionResult, translation: Result<TranslationResult, Failure>)
    ensures var o := TranslationOutcome(rr, translation);
      LegalPath(TextTranslating, o.states)
      && (Final(TextTranslating, o.states) == ResultDisplaying || Final(TextTranslating, o.states) == Idle)
      && (Final(TextTranslating, o.states) == ResultDisplaying <==>
            translation.Ok? && ShownResult(rr, translation.value).Some?)
      && o.errors == OptionSeq(TranslationError(translation))
      && o.results == (if translation.Ok? then OptionSeq(ShownResult(rr, translation.value)) else [])
      && o.recycled == []
  {
    match translation
    case Err(err) =>
      ShowErrorEffectsLegal(TextTranslating, TranslationThrownMessage(err));
    case Ok(t) =>
      match t
      case TranslationFailed(err) =>
        ShowErrorEffectsLegal(TextTranslating, TranslationFailedMessage(err));
      case OuterTranslatorLaunched =>
        BackToIdleEffectsLegal(TextTranslating);
      case _ =>
        assert TranslationOutcome(rr, translation).states == [ResultDisplaying];
  }

  /** `startTranslation` once started: TextTranslating, then the result, an error, or Idle. */
  function TranslationEffects(rr: RecognitionResult, translation: Result<TranslationResult, Failure>): Effects
  {
    Moves([TextTranslating]).Then(TranslationOutcome(rr, translation))
  }

  /**
   * A translation is legal from both states it may start from, and ends
   * showing a result or in Idle; it shows the translation's error if any and
   * its result if any, and recycles nothing.
   */
  lemma TranslationEffectsLegal(from: State, rr: RecognitionResult, translation: Result<TranslationResult, Failure>)
    requires from == TextRecognizing || from == ResultDisplaying
    ensures var e := TranslationEffects(rr, translation);
      e.states != [] && e.states[0] == TextTranslating
      && LegalPath(from, e.states)
      && (Final(from, e.states) == ResultDisplaying || Final(from, e.states) == Idle)
      && (Final(from, e.states) == ResultDisplaying <==> e.results != [])
      && (Final(from, e.states) == ResultDisplaying <==>
            translation.Ok? && ShownResult(rr, translation.value).Some?)
      && e.errors == OptionSeq(TranslationError(translation))
      && e.results == (if translation.Ok? then OptionSeq(ShownResult(rr, translation.value)) else [])
      && e.recycled == []
  {
    var o := TranslationOutcome(rr, translation);
    TranslationOutcomeLegal(rr, translation);
    assert TranslationEffects(rr, translation) == Effects([TextTranslating] + o.states, o.errors, o.results, o.recycled);
    LegalCons(from, TextTranslating, o.states);
  }

  /** `startRecognition` once started: TextRecognizing, then an error or the recycled bitmap and a translation. */
  function RecognitionEffects(bitmap: Bitmap, recognition: Result<RecognitionResult, Failure>,
                              translation: Result<TranslationResult, Failure>): Effects
  {
    Moves([TextRecognizing]).Then(RecognitionOutcome(bitmap, recognition, translation))
  }

  /** What `startRecognition` does once in TextRecognizing: an error, or the recycled crop and a translation. */
  function RecognitionOutcome(bitmap: Bitmap, recognition: Result<RecognitionResult, Failure>,
                              translation: Result<TranslationResult, Failure>): Effects
  {
    match recognition
    case Err(err) => ShowErrorEffects(TextRecognizing, RecognitionErrorMessage(err))
    case Ok(rr) => Effects([], [], [], [bitmap]).Then(TranslationEffects(rr, translation))
  }

  /** `startScreenCapturing` once both rectangles are known: ScreenCapturing, then an error or a recognition. */
  function CaptureEffects(capture: Result<Bitmap, Failure>, recognition: Result<RecognitionResult, Failure>,
                          translation: Result<TranslationResult, Failure>): Effects
  {
    Moves([ScreenCapturing]).Then(CaptureOutcome(capture, recognition, translation))
  }

  /** What `startScreenCapturing` does once in ScreenCapturing: an error, or a recognition. */
  function CaptureOutcome(capture: Result<Bitmap, Failure>, recognition: Result<RecognitionResult, Failure>,
                          translation: Result<TranslationResult, Failure>): Effects
  {
    match capture
    case Err(err) => ShowErrorEffects(ScreenCapturing, CaptureErrorMessage(err))
    case Ok(bitmap) => RecognitionEffects(bitmap, recognition, translation)
  }

  /**
   * A recognition is legal from ScreenCapturing and ends showing a result or in
   * Idle. The crop is recycled only after a successful recognition, and a
   * failed one shows its one error and no result.
   */
  lemma RecognitionEffectsLegal(bitmap: Bitmap, recognition: Result<RecognitionResult, Failure>,
                                translation: Result<TranslationResult, Failure>)
    ensures var e := RecognitionEffects(bitmap, recognition, translation);
      e.states != [] && e.states[0] == TextRecognizing
      && LegalPath(ScreenCapturing, e.states)
      && (Final(ScreenCapturing, e.states) == ResultDisplaying || Final(ScreenCapturing, e.states) == Idle)
      && (Final(ScreenCapturing, e.states) == ResultDisplaying <==>
            recognition.Ok? && translation.Ok? && ShownResult(recognition.value, translation.value).Some?)
      && e.recycled == (if recognition.Ok? then [bitmap] else [])
      && (recognition.Err? ==> e.errors == [RecognitionErrorMessage(recognition.error)] && e.results == [])
  {
    var o := RecognitionOutcome(bitmap, recognition, translation);
    RecognitionOutcomeLegal(bitmap, recognition, translation);
    assert RecognitionEffects(bitmap, recognition, translation) == Effects([TextRecognizing] + o.states, o.errors, o.results, o.recycled);
    LegalCons(ScreenCapturing, TextRecognizing, o.states);
  }

  /** The part of a recognition after TextRecognizing is legal from there. */
  lemma RecognitionOutcomeLegal(bitmap: Bitmap, recognition: Result<RecognitionResult, Failure>,
                                translation: Result<TranslationResult, Failure>)
    ensures var o := RecognitionOutcome(bitmap, recognition, translation);
      LegalPath(TextRecognizing, o.states)
      && (Final(TextRecognizing, o.states) == ResultDisplaying || Final(TextRecognizing, o.states) == Idle)
      && (Final(TextRecognizing, o.states) == ResultDisplaying <==>
            recognition.Ok? && translation.Ok? && ShownResult(recognition.value, translation.value).Some?)
      && o.recycled == (if recognition.Ok? then [bitmap] else [])
      && (recognition.Err? ==> o.errors == [RecognitionErrorMessage(recognition.error)] && o.results == [])
  {
    match recognition
    case Err(err) =>
      ShowErrorEffectsLegal(TextRecognizing, RecognitionErrorMessage(err));
    case Ok(rr) =>
      var t := TranslationEffects(rr, translation);
      TranslationEffectsLegal(TextRecognizing, rr, translation);
      assert RecognitionOutcome(bitmap, recognition, translation) == Effects(t.states, t.errors, t.results, [bitmap]);
  }

  /**
   * Every capture session from ScreenCircled is a legal sequence of moves; it
   * ends showing a result exactly when capture, recognition and translation
   * all succeed with a result to show, and otherwise back in Idle. The crop is
   * recycled exactly when the recognition succeeds, and a failed capture
   * shows its error and returns to Idle with nothing else happening.
   */
  lemma CaptureEffectsLegal(capture: Result<Bitmap, Failure>, recognition: Result<RecognitionResult, Failure>,
                            translation: Result<TranslationResult, Failure>)
    ensures var e := CaptureEffects(capture, recognition, translation);
      e.states != [] && e.states[0] == ScreenCapturing
      && LegalPath(ScreenCircled, e.states)
      && (Final(ScreenCircled, e.states) == ResultDisplaying || Final(ScreenCircled, e.states) == Idle)
      && (Final(ScreenCircled, e.states) == ResultDisplaying <==>
            capture.Ok? && recognition.Ok? && translation.Ok? && ShownResult(recognition.value, translation.value).Some?)
      && (e.recycled != [] <==> capture.Ok? && recognition.Ok?)
  {
    var o := CaptureOutcome(capture, recognition, translation);
    CaptureOutcomeLegal(capture, recognition, translation);
    assert CaptureEffects(capture, recognition, translation) == Effects([ScreenCapturing] + o.states, o.errors, o.results, o.recycled);
    LegalCons(ScreenCircled, ScreenCapturing, o.states);
  }

  /** The part of a capture session after ScreenCapturing is legal from there. */
  lemma CaptureOutcomeLegal(capture: Result<Bitmap, Failure>, recognition: Result<RecognitionResult, Failure>,
                            translation: Result<TranslationResult, Failure>)
    ensures var o := CaptureOutcome(capture, recognition, translation);
      LegalPath(ScreenCapturing, o.states)
      && (Final(ScreenCapturing, o.states) == ResultDisplaying || Final(ScreenCapturing, o.states) == Idle)
      && (Final(ScreenCapturing, o.states) == ResultDisplaying <==>
            capture.Ok? && recognition.Ok? && translation.Ok? && ShownResult(recognition.value, translation.value).Some?)
      && (o.recycled != [] <==> capture.Ok? && recognition.Ok?)
  {
    match capture
    case Err(err) =>
      ShowErrorEffectsLegal(ScreenCapturing, CaptureErrorMessage(err));
    case Ok(bitmap) =>
      RecognitionEffectsLegal(bitmap, recognition, translation);
  }

  /** A failed capture shows its error and returns to Idle, and nothing else happens. */
  lemma CaptureFailureEffects(err: Failure, recognition: Result<RecognitionResult, Failure>,
                              translation: Result<TranslationResult, Failure>)
    ensures CaptureEffects(Err(err), recognition, translation)
      == Effects([ScreenCapturing, ErrorDisplaying(CaptureErrorMessage(err)), Idle], [CaptureErrorMessage(err)], [], [])
  {
    var m := CaptureErrorMessage(err);
    var o := ShowErrorEffects(ScreenCapturing, m);
    assert CanMove(ScreenCapturing, ErrorDisplaying(m));
    ShowErrorEffectsLegal(ScreenCapturing, m);
    assert [ScreenCapturing] + o.states == [ScreenCapturing, ErrorDisplaying(m), Idle];
    assert CaptureEffects(Err(err), recognition, translation) == Effects([ScreenCapturing] + o.states, o.errors, o.results, o.recycled);
  }

  /**
   * A capture session appended to a legal trace that has reached ScreenCircled
   * keeps the trace legal, and leaves the manager showing a result or in Idle.
   */
  lemma SessionEnds(trace0: seq<State>, capture: Result<Bitmap, Failure>,
                    recognition: Result<RecognitionResult, Failure>,
                    translation: Result<TranslationResult, Failure>)
    requires LegalPath(Idle, trace0) && Final(Idle, trace0) == ScreenCircled
    ensures var t := trace0 + CaptureEffects(capture, recognition, translation).states;
      LegalPath(Idle, t)
      && (Final(Idle, t) == ResultDisplaying || Final(Idle, t) == Idle)
      && (Final(Idle, t) == ResultDisplaying <==>
            capture.Ok? && recognition.Ok? && translation.Ok? && ShownResult(recognition.value, translation.value).Some?)
  {
    CaptureEffectsLegal(capture, recognition, translation);
    LegalPathConcat(Idle, trace0, CaptureEffects(capture, recognition, translation).states);
  }

  /** Recycling a bitmap only appends it to what was recycled. */
  lemma ThenRecycle(e: Effects, b: Bitmap)
    ensures e.Then(Effects([], [], [], [b])) == e.(recycled := e.recycled + [b])
  {
    assert e.states + [] == e.states && e.errors + [] == e.errors && e.results + [] == e.results;
  }

  lemma ThenAssoc(a: Effects, b: Effects, c: Effects)
    ensures a.Then(b).Then(c) == a.Then(b.Then(c))
  {
  }

  /** The `FloatingStateManager` singleton. */
  class FloatingStateManager {
    var state: State
    /** Every state committed since creation, in order; the initial Idle is not listed. */
    var trace: seq<State>
    /** The error dialogs shown, in order. */
    var errorsShown: seq<string>
    /** The results handed to the result view, in order. */
    var resultsShown: seq<DisplayedResult>
    /** The crops recycled, in order. */
    var recycled: seq<Bitmap>
    var selectedOCRLang: string
    var parentRect: Option<Rect>
    var selectedRect: Option<Rect>
    var croppedBitmap: Option<Bitmap>

    function Log(): Effects
      reads this
    {
      Effects(trace, errorsShown, resultsShown, recycled)
    }

    /** The selection data a capture works on. */
    function Selection(): (string, Option<Rect>, Option<Rect>, Option<Bitmap>)
      reads this
    {
      (selectedOCRLang, parentRect, selectedRect, croppedBitmap)
    }

    /** Every committed move was allowed, and the current state is the last one committed. */
    predicate Valid()
      reads this
    {
      LegalPath(Idle, trace) && state == Final(Idle, trace)
    }

    constructor ()
      ensures Valid() && state == Idle && Log() == NO_EFFECTS
      ensures Selection() == (Constants.DEFAULT_OCR_LANG, None, None, None)
    {
      state := Idle;
      trace := [];
      errorsShown := [];
      resultsShown := [];
      recycled := [];
      selectedOCRLang := Constants.DEFAULT_OCR_LANG;
      parentRect := None;
      selectedRect := None;
      croppedBitmap := None;
    }

    /** `changeState`: commits `newState` only if its kind is allowed after the current state. */
    method ChangeState(newState: State)
      requires Valid()
      modifies this
      ensures Valid()
      ensures CanMove(old(state), newState) ==> state == newState && Log() == old(Log()).Then(Moves([newState]))
      ensures !CanMove(old(state), newState) ==> state == old(state) && Log() == old(Log())
      ensures Selection() == old(Selection())
    {
      if CanMove(state, newState) {
        LegalPathConcat(Idle, trace, [newState]);
        trace := trace + [newState];
        state := newState;
      }
    }

    /** `backToIdle` */
    method BackToIdle()
      requires Valid()
      modifies this
      ensures Valid() && state == Idle
      ensures Log() == old(Log()).Then(BackToIdleEffects(old(state)))
      ensures Selection() == old(Selection())
    {
      if state != Idle {
        ChangeState(Idle);
      }
    }

    /** `showError`: the error state, its dialog, and back to Idle. */
    method ShowError(message: string)
      requires Valid()
      modifies this
      ensures Valid() && state == Idle
      ensures Log() == old(Log()).Then(ShowErrorEffects(old(state), message))
      ensures Selection() == old(Selection())
    {
      ChangeState(ErrorDisplaying(message));
      errorsShown := errorsShown + [message];
      BackToIdle();
    }

    /** `showResult`, which only runs from TextTranslating. */
    method ShowResult(result: DisplayedResult)
      requires Valid()
      modifies this
      ensures Valid()
      ensures old(state) == TextTranslating ==>
        state == ResultDisplaying && Log() == old(Log()).Then(Effects([ResultDisplaying], [], [result], []))
      ensures old(state) != TextTranslating ==> unchanged(this)
      ensures Selection() == old(Selection())
    {
      if state == TextTranslating {
        ChangeState(ResultDisplaying);
        resultsShown := resultsShown + [result];
      }
    }

    /**
     * `startTranslation`, which only runs from TextRecognizing or
     * ResultDisplaying; `translation` is what the active translator returns, or
     * the failure it throws.
     */
    method StartTranslation(rr: RecognitionResult, translation: Result<TranslationResult, Failure>)
      requires Valid()
      modifies this
      ensures Valid()
      ensures old(state) == TextRecognizing || old(state) == ResultDisplaying ==>
        Log() == old(Log()).Then(TranslationEffects(rr, translation))
      ensures !(old(state) == TextRecognizing || old(state) == ResultDisplaying) ==> unchanged(this)
      ensures Selection() == old(Selection())
    {
      if state == TextRecognizing || state == ResultDisplaying {
        Translate(rr, translation);
      }
    }

    /** The body `startTranslation` runs once its state guard has passed. */
    method Translate(rr: RecognitionResult, translation: Result<TranslationResult, Failure>)
      requires Valid() && (state == TextRecognizing || state == ResultDisplaying)
      modifies this
      ensures Valid()
      ensures Log() == old(Log()).Then(TranslationEffects(rr, translation))
      ensures Selection() == old(Selection())
    {
      ghost var log0 := Log();
      ChangeState(TextTranslating);
      ghost var log1 := Log();
      match translation {
      case Err(err) =>
        ShowError(TranslationThrownMessage(err));
        assert Log() == log1.Then(TranslationOutcome(rr, translation));
      case Ok(t) =>
        match t
        case OuterTranslatorLaunched =>
          BackToIdle();
          assert Log() == log1.Then(TranslationOutcome(rr, translation));
        case TranslationFailed(err) =>
          ShowError(TranslationFailedMessage(err));
          assert Log() == log1.Then(TranslationOutcome(rr, translation));
        case _ =>
          ShowResult(ShownResult(rr, t).value);
          assert Log() == log1.Then(TranslationOutcome(rr, translation));
      }
      ThenAssoc(log0, Moves([TextTranslating]), TranslationOutcome(rr, translation));
    }

    /**
     * `startRecognition`, which only runs from ScreenCapturing; `recognition`
     * is the recognizer's result or the failure it throws. The crop is
     * recycled only after a successful recognition.
     */
    method StartRecognition(bitmap: Bitmap, recognition: Result<RecognitionResult, Failure>,
                            translation: Result<TranslationResult, Failure>)
      requires Valid()
      modifies this
      ensures Valid()
      ensures old(state) == ScreenCapturing ==>
        Log() == old(Log()).Then(RecognitionEffects(bitmap, recognition, translation))
      ensures old(state) != ScreenCapturing ==> unchanged(this)
      ensures Selection() == old(Selection())
    {
      if state == ScreenCapturing {
        Recognize(bitmap, recognition, translation);
      }
    }

    /** The body `startRecognition` runs once its state guard has passed. */
    method Recognize(bitmap: Bitmap, recognition: Result<RecognitionResult, Failure>,
                     translation: Result<TranslationResult, Failure>)
      requires Valid() && state == ScreenCapturing
      modifies this
      ensures Valid()
      ensures Log() == old(Log()).Then(RecognitionEffects(bitmap, recognition, translation))
      ensures Selection() == old(Selection())
    {
      ghost var log0 := Log();
      ChangeState(TextRecognizing);
      ghost var log1 := Log();
      match recognition {
      case Err(err) =>
        ShowError(RecognitionErrorMessage(err));
        assert Log() == log1.Then(RecognitionOutcome(bitmap, recognition, translation));
      case Ok(rr) =>
        recycled := recycled + [bitmap];
        ThenRecycle(log1, bitmap);
        StartTranslation(rr, translation);
        ThenAssoc(log1, Effects([], [], [], [bitmap]), TranslationEffects(rr, translation));
      }
      ThenAssoc(log0, Moves([TextRecognizing]), RecognitionOutcome(bitmap, recognition, translation));
    }

    /**
     * `startScreenCapturing`, which only runs from ScreenCircled. It records
     * the OCR language first and stops if either rectangle is missing;
     * `capture` is the screen extraction's crop or failure. Where the session
     * ends is stated by `Capture`, the body it runs.
     */
    method StartScreenCapturing(lang: string, capture: Result<Bitmap, Failure>,
                                recognition: Result<RecognitionResult, Failure>,
                                translation: Result<TranslationResult, Failure>)
      requires Valid()
      modifies this
      ensures Valid()
      ensures old(state) != ScreenCircled ==> unchanged(this)
      ensures old(state) == ScreenCircled ==>
        selectedOCRLang == lang && parentRect == old(parentRect) && selectedRect == old(selectedRect)
      ensures old(state) == ScreenCircled && (old(parentRect).None? || old(selectedRect).None?) ==>
        state == ScreenCircled && Log() == old(Log()) && croppedBitmap == old(croppedBitmap)
      ensures old(state) == ScreenCircled && old(parentRect).Some? && old(selectedRect).Some? ==>
        Log() == old(Log()).Then(CaptureEffects(capture, recognition, translation))
        && croppedBitmap == (if capture.Ok? then Some(capture.value) else old(croppedBitmap))
    {
      if state == ScreenCircled {
        selectedOCRLang := lang;
        if parentRect.Some? && selectedRect.Some? {
          Capture(capture, recognition, translation);
        }
      }
    }

    /** The body `startScreenCapturing` runs once the language is recorded and both rectangles are known. */
    method Capture(capture: Result<Bitmap, Failure>, recognition: Result<RecognitionResult, Failure>,
                   translation: Result<TranslationResult, Failure>)
      requires Valid() && state == ScreenCircled
      modifies this
      ensures Valid()
      ensures Log() == old(Log()).Then(CaptureEffects(capture, recognition, translation))
      ensures selectedOCRLang == old(selectedOCRLang) && parentRect == old(parentRect) && selectedRect == old(selectedRect)
      ensures croppedBitmap == (if capture.Ok? then Some(capture.value) else old(croppedBitmap))
      ensures state == ResultDisplaying || state == Idle
      ensures state == ResultDisplaying <==>
        capture.Ok? && recognition.Ok? && translation.Ok? && ShownResult(recognition.value, translation.value).Some?
    {
      ghost var log0 := Log();
      ghost var trace0 := trace;
      ChangeState(ScreenCapturing);
      assert Log() == log0.Then(Moves([ScreenCapturing]));
      ghost var log1 := Log();
      match capture {
      case Err(err) =>
        ShowError(CaptureErrorMessage(err));
      case Ok(bitmap) =>
        croppedBitmap := Some(bitmap);
        assert Log() == log1;
        StartRecognition(bitmap, recognition, translation);
      }
      assert Log() == log1.Then(CaptureOutcome(capture, recognition, translation));
      ThenAssoc(log0, Moves([ScreenCapturing]), CaptureOutcome(capture, recognition, translation));
      assert CaptureEffects(capture, recognition, translation) == Moves([ScreenCapturing]).Then(CaptureOutcome(capture, recognition, translation));
      SessionEnds(trace0, capture, recognition, translation);
    }

    /** `startScreenCircling`: from Idle, and only when the active translator's environment is ready. */
    method StartScreenCircling(environmentReady: bool)
      requires Valid()
      modifies this
      ensures Valid()
      ensures old(state) == Idle && environmentReady ==>
        state == ScreenCircling && Log() == old(Log()).Then(Moves([ScreenCircling]))
        && Selection() == old(Selection())
      ensures !(old(state) == Idle && environmentReady) ==> unchanged(this)
    {
      if state == Idle && environmentReady {
        ChangeState(ScreenCircling);
      }
    }

    /** `onAreaSelected`: stores both rectangles, moving to ScreenCircled unless already there. */
    method OnAreaSelected(parent: Rect, selected: Rect)
      requires Valid()
      modifies this
      ensures Valid()
      ensures old(state) == ScreenCircling || old(state) == ScreenCircled ==>
        state == ScreenCircled && parentRect == Some(parent) && selectedRect == Some(selected)
        && Log() == old(Log()).Then(Moves(if old(state) == ScreenCircling then [ScreenCircled] else []))
        && selectedOCRLang == old(selectedOCRLang) && croppedBitmap == old(croppedBitmap)
      ensures !(old(state) == ScreenCircling || old(state) == ScreenCircled) ==> unchanged(this)
    {
      if state == ScreenCircling || state == ScreenCircled {
        if state != ScreenCircled {
          ChangeState(ScreenCircled);
        }
        selectedRect := Some(selected);
        parentRect := Some(parent);
      }
    }

    /** `cancelScreenCircling`: back to Idle from either selection state. */
    method CancelScreenCircling()
      requires Valid()
      modifies this
      ensures Valid()
      ensures old(state) == ScreenCircling || old(state) == ScreenCircled ==>
        state == Idle && Log() == old(Log()).Then(Moves([Idle]))
      ensures !(old(state) == ScreenCircling || old(state) == ScreenCircled) ==> unchanged(this)
      ensures Selection() == old(Selection())
    {
      if state == ScreenCircling || state == ScreenCircled {
        ChangeState(Idle);
      }
    }
  }
}
