/**
 Runs of the avatar component from its first render, each driven through the
 handlers and continuations in an order the browser, the SDK and the backend
 can deliver them, with what the run ends in stated as a postcondition. A run
 presses only buttons the page leaves enabled: Start while no session is
 active, Stop while one is (Avatar.jsx:245, :252). Messages and replies are
 parameters, so each run stands for every input of its kind.
 */
module AvatarScenarios {
  import opened ReplyPolicy
  import opened AvatarSession

  /** The first render, a start whose avatar comes up, and `message` typed and
      submitted: the state every run below that begins this way is in. */
  method MessageSentInSession(message: string) returns (a: Avatar)
    ensures fresh(a) && a.Valid()
    ensures a.sessionActive && a.chatHistory == [] && a.speechText == message && !a.isListening
    ensures a.synth == Open(0) && !a.recognizerCreated && a.recognizerRef == NoRef
    ensures a.synthsCreated == 1 && a.startsSettled == {0}
    ensures a.backendRequests == [message] && a.requestSpeakers == [Ref(0)] && a.repliesSettled == {}
    ensures a.speakCalls == [] && a.speaksSettled == {} && a.stopRequests == [] && a.stopsSettled == {}
    ensures a.recognizerConstructions == 0 && a.recognizerCalls == [] && a.alerts == 0
  {
    a := new Avatar();
    a.StartSession(true);
    a.OnAvatarStarted(0);
    a.HandleSpeechText(message);
    a.HandleSubmit();
  }

  /** Start, the avatar comes up, `message` is typed and sent, the backend
      answers with a non-blank `reply`: one transcript line, one speak call on
      the session's synthesizer, and the input buffer is cleared. */
  method TypedMessageIsAnsweredAndSpoken(message: string, reply: string)
    returns (history: seq<Entry>, spoken: seq<SpeakCall>, requests: seq<string>, input: string)
    requires HasContent(reply)
    ensures history == [Entry(message, reply)]
    ensures spoken == [SpeakCall(0, reply)]
    ensures requests == [message]
    ensures input == ""
  {
    var a := MessageSentInSession(message);
    a.OnBackendReply(0, Str(reply));
    history, spoken, requests, input := a.chatHistory, a.speakCalls, a.backendRequests, a.speechText;
  }

  /** The backend's `response` is not a string: the "not understood" line is
      recorded, nothing is spoken and the input buffer is kept. */
  method NonStringReplyFallsBack(message: string)
    returns (history: seq<Entry>, spoken: seq<SpeakCall>, input: string)
    ensures history == [Entry(message, NotUnderstood)]
    ensures spoken == []
    ensures input == message
  {
    var a := MessageSentInSession(message);
    a.OnBackendReply(0, NonString);
    history, spoken, input := a.chatHistory, a.speakCalls, a.speechText;
  }

  /** A reply that is blank after trimming (the empty string included) is
      treated like a non-string. */
  method BlankReplyFallsBack(message: string, reply: string)
    returns (history: seq<Entry>, spoken: seq<SpeakCall>)
    requires AllWhitespace(reply)
    ensures history == [Entry(message, NotUnderstood)]
    ensures spoken == []
  {
    var a := MessageSentInSession(message);
    a.OnBackendReply(0, Str(reply));
    history, spoken := a.chatHistory, a.speakCalls;
  }

  /** The backend request fails: the error line is recorded and nothing is
      spoken; the session stays active. */
  method BackendFailureFallsBack(message: string)
    returns (history: seq<Entry>, spoken: seq<SpeakCall>, active: bool)
    ensures history == [Entry(message, BackendFailure)]
    ensures spoken == []
    ensures active
  {
    var a := MessageSentInSession(message);
    a.OnBackendError(0);
    history, spoken, active := a.chatHistory, a.speakCalls, a.sessionActive;
  }

  /** Submitting before any session has started posts nothing. */
  method SubmitWithoutSessionPostsNothing(message: string)
    returns (requests: seq<string>, history: seq<Entry>)
    ensures requests == []
    ensures history == []
  {
    var a := new Avatar();
    a.HandleSpeechText(message);
    a.HandleSubmit();
    requests, history := a.backendRequests, a.chatHistory;
  }

  /** Listening is toggled twice with `transcript` recognized in between: the
      transcript is posted once, the recognizer was built once and asked to
      start and then to stop, and listening ends with the end event. */
  method ToggleListeningPostsTranscriptOnce(transcript: string)
    returns (requests: seq<string>, calls: seq<RecognizerCall>, listening: bool, built: nat)
    ensures requests == [transcript]
    ensures calls == [StartRecognition, StopRecognition]
    ensures !listening
    ensures built == 1
  {
    var a := new Avatar();
    a.StartListening(true);
    a.OnRecognitionResult(transcript);
    a.StartListening(true);
    a.OnRecognitionEnd();
    requests, calls, listening, built := a.backendRequests, a.recognizerCalls, a.isListening,
                                         a.recognizerConstructions;
  }

  /** Asking to stop listening leaves the flag set until the end event. */
  method StopListeningWaitsForEnd() returns (listeningAfterToggle: bool, listeningAfterEnd: bool)
    ensures listeningAfterToggle
    ensures !listeningAfterEnd
  {
    var a := new Avatar();
    a.StartListening(true);
    a.StartListening(true);
    listeningAfterToggle := a.isListening;
    a.OnRecognitionEnd();
    listeningAfterEnd := a.isListening;
  }

  /** Without recognition support the component alerts and builds nothing. */
  method UnsupportedRecognitionAlerts() returns (alerts: nat, built: bool, listening: bool)
    ensures alerts == 1 && !built && !listening
  {
    var a := new Avatar();
    a.StartListening(false);
    alerts, built, listening := a.alerts, a.recognizerCreated, a.isListening;
  }

  /** A recognized transcript is posted although no session was ever started,
      and a reply with "OTP" anywhere in it clears the typed input buffer while
      the transcript keeps the reply as it came; with no synthesizer nothing is
      spoken. */
  method VoiceInputBypassesSession(typed: string, transcript: string, before: string, after: string)
    returns (active: bool, requests: seq<string>, history: seq<Entry>, spoken: seq<SpeakCall>,
             input: string)
    ensures !active
    ensures requests == [transcript]
    ensures history == [Entry(transcript, before + OtpMarker + after)]
    ensures spoken == []
    ensures input == ""
  {
    var a := new Avatar();
    a.HandleSpeechText(typed);
    a.StartListening(true);
    a.OnRecognitionResult(transcript);
    var reply := before + OtpMarker + after;
    OtpAnywhereIsSensitive(before, after);
    assert reply[|before|] == 'O';
    a.OnBackendReply(0, Str(reply));
    active, requests, history, spoken, input := a.sessionActive, a.backendRequests,
                                                a.chatHistory, a.speakCalls, a.speechText;
  }

  /** A failed avatar start keeps the session inactive but the new
      synthesizer stored. */
  method FailedStartStaysInactive() returns (active: bool, synth: Synth)
    ensures !active
    ensures synth == Open(0)
  {
    var a := new Avatar();
    a.StartSession(true);
    a.OnAvatarStartFailed(0);
    active, synth := a.sessionActive, a.synth;
  }

  /** A start keeps the transcript: a voice transcript answered with an error
      before any session keeps its line once a session is up. */
  method StartKeepsEarlierTranscript(transcript: string)
    returns (active: bool, synth: Synth, history: seq<Entry>)
    ensures active
    ensures synth == Open(0)
    ensures history == [Entry(transcript, BackendFailure)]
  {
    var a := new Avatar();
    a.StartListening(true);
    a.OnRecognitionResult(transcript);
    a.OnBackendError(0);
    a.StartSession(true);
    a.OnAvatarStarted(0);
    active, synth, history := a.sessionActive, a.synth, a.chatHistory;
  }

  /** A start whose factory throws stores nothing, and the next start creates
      the first synthesizer. */
  method FactoryFailureStoresNothing() returns (synthAfterThrow: Synth, synthAfterRetry: Synth)
    ensures synthAfterThrow == NoSynth
    ensures synthAfterRetry == Open(0)
  {
    var a := new Avatar();
    a.StartSession(false);
    synthAfterThrow := a.synth;
    a.StartSession(true);
    synthAfterRetry := a.synth;
  }

  /** A reply that arrives after a stop and a new start is spoken on the
      synthesizer that was stored when the message was sent, not on the new
      one. */
  method LateReplySpeaksOnSendingSynthesizer(message: string, reply: string)
    returns (synth: Synth, spoken: seq<SpeakCall>)
    requires HasContent(reply)
    ensures synth == Open(1)
    ensures spoken == [SpeakCall(0, reply)]
  {
    var a := MessageSentInSession(message);
    a.StopSession();
    a.StartSession(true);
    a.OnBackendReply(0, Str(reply));
    synth, spoken := a.synth, a.speakCalls;
  }

  /** The recognizer's callbacks hold the synthesizer of the render that
      built it: when listening began before any session, a reply to a voice
      transcript is recorded but never spoken, even with a session up. */
  method VoiceReplyUnspokenWhenListeningPrecedesSession(transcript: string, reply: string)
    returns (active: bool, history: seq<Entry>, spoken: seq<SpeakCall>)
    requires HasContent(reply)
    ensures active
    ensures history == [Entry(transcript, reply)]
    ensures spoken == []
  {
    var a := new Avatar();
    a.StartListening(true);
    a.StartSession(true);
    a.OnAvatarStarted(0);
    a.OnRecognitionResult(transcript);
    a.OnBackendReply(0, Str(reply));
    active, history, spoken := a.sessionActive, a.chatHistory, a.speakCalls;
  }

  /** Stopping ends the session, clears the transcript at once and asks the
      session's synthesizer to stop speaking. */
  method StopClearsTranscript(message: string) returns (active: bool, history: seq<Entry>, stops: seq<nat>)
    ensures !active && history == []
    ensures stops == [0]
  {
    var a := MessageSentInSession(message);
    a.OnBackendError(0);
    a.StopSession();
    active, history, stops := a.sessionActive, a.chatHistory, a.stopRequests;
  }

  /** The synthesizer is closed only when the stop-speaking request resolves. */
  method StopClosesSynthesizerOnResolve() returns (synthAfterStop: Synth, synthAfterResolve: Synth)
    ensures synthAfterStop == Open(0)
    ensures synthAfterResolve == Closed(0)
  {
    var a := new Avatar();
    a.StartSession(true);
    a.OnAvatarStarted(0);
    a.StopSession();
    synthAfterStop := a.synth;
    a.OnStopSpeakingResolved(0);
    synthAfterResolve := a.synth;
  }

  /** A failed stop-speaking request leaves the synthesizer open, and the
      session is still stopped. */
  method FailedStopLeavesSynthesizerOpen() returns (active: bool, synth: Synth)
    ensures !active
    ensures synth == Open(0)
  {
    var a := new Avatar();
    a.StartSession(true);
    a.OnAvatarStarted(0);
    a.StopSession();
    a.OnStopSpeakingFailed(0);
    active, synth := a.sessionActive, a.synth;
  }

  /** A stop that resolves after a new start closes the synthesizer it was
      issued on, not the new one. */
  method LateStopLeavesNewSynthesizerOpen() returns (synth: Synth)
    ensures synth == Open(1)
  {
    var a := new Avatar();
    a.StartSession(true);
    a.OnAvatarStarted(0);
    a.StopSession();
    a.StartSession(true);
    a.OnStopSpeakingResolved(0);
    synth := a.synth;
  }

  /** A rejected speak call closes the synthesizer it was made on. */
  method RejectedSpeakClosesSynthesizer(message: string, reply: string)
    returns (synth: Synth, spoken: seq<SpeakCall>)
    requires HasContent(reply)
    ensures synth == Closed(0)
    ensures spoken == [SpeakCall(0, reply)]
  {
    var a := MessageSentInSession(message);
    a.OnBackendReply(0, Str(reply));
    a.OnSpeakRejected(0);
    synth, spoken := a.synth, a.speakCalls;
  }
}
