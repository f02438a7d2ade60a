/**
 The session and chat state machine of the avatar component
 (src/components/Avatar.jsx). Every React state variable of the component is
 a field; every handler, and every continuation it registers on a promise or
 a recognizer callback, is a method. State updates take effect at once.

 The SDKs, the network and the browser are not modelled; what the component
 asks of them is recorded instead: the messages posted to the chat backend,
 the texts handed to the synthesizer, the start/stop requests sent to the
 recognizer, the alerts shown. A continuation can only run for a call that
 was made and has not settled yet, so the component also keeps the pending
 calls; each continuation method requires its call to be pending.
 */
module AvatarSession {
  import opened ReplyPolicy

  /** One line of the transcript. */
  datatype Entry = Entry(userMessage: string, reply: string)

  /** The `avatarSynthesizer` state: none yet, or the synthesizer created by the
      `id`-th start, open or closed. A closed synthesizer is still a (truthy)
      object, so the component's `if (avatarSynthesizer)` checks pass for it. */
  datatype Synth = NoSynth | Open(id: nat) | Closed(id: nat)

  /** The synthesizer a closure holds: the `avatarSynthesizer` of the render
      that created the closure, or none. */
  datatype SynthRef = NoRef | Ref(id: nat)

  /** The synthesizer a closure created now would hold. */
  function RefOf(s: Synth): (r: SynthRef)
    ensures r.NoRef? <==> s.NoSynth?
    ensures r.Ref? ==> r.id == s.id
  {
    if s.NoSynth? then NoRef else Ref(s.id)
  }

  /** What the synthesizer's speak promise resolves with; every reason only logs. */
  datatype SpeakResult = SynthesizingCompleted | Canceled(isError: bool) | OtherReason

  /** One `speakTextAsync` call: the synthesizer it was made on, and the text. */
  datatype SpeakCall = SpeakCall(synthId: nat, text: string)

  /** A request the component sends to the platform recognizer. */
  datatype RecognizerCall = StartRecognition | StopRecognition

  /** The synthesizer after `close()` is called on synthesizer `id`: only the
      current synthesizer can be affected, and closing never destroys it. */
  function AfterClose(s: Synth, id: nat): (r: Synth)
    ensures r.NoSynth? <==> s.NoSynth?
    ensures !s.NoSynth? ==> r.id == s.id
    ensures !s.NoSynth? ==> (r.Closed? <==> s.Closed? || s.id == id)
  {
    if !s.NoSynth? && s.id == id then Closed(id) else s
  }

  /** The recognizer is built at most once, and only a built recognizer
      listens or is sent requests. */
  predicate RecognizerInvariant(created: bool, constructions: nat, listening: bool,
                                calls: seq<RecognizerCall>)
  {
    && constructions == (if created then 1 else 0)
    && (listening ==> created)
    && (calls != [] ==> created)
  }

  /** The current synthesizer is the one the latest start created; before the
      first start there is no session and nothing has been asked of a
      synthesizer. */
  predicate SynthInvariant(synth: Synth, synthsCreated: nat, sessionActive: bool,
                           speakCalls: seq<SpeakCall>, stopRequests: seq<nat>)
  {
    && (synth.NoSynth? <==> synthsCreated == 0)
    && (!synth.NoSynth? ==> synth.id == synthsCreated - 1)
    && (synth.NoSynth? ==> !sessionActive && speakCalls == [] && stopRequests == [])
  }

  /** A synthesizer held by a closure was created by one of the starts so far. */
  predicate HeldExists(r: SynthRef, synthsCreated: nat)
  {
    r.Ref? ==> r.id < synthsCreated
  }

  /** Every posted message carries the synthesizer its reply will be spoken
      on, and so does the recognizer's result callback; each was created by
      an earlier start. */
  predicate HolderInvariant(requests: seq<string>, speakers: seq<SynthRef>, recognizerRef: SynthRef,
                            synthsCreated: nat)
  {
    && |speakers| == |requests|
    && (forall i :: 0 <= i < |speakers| ==> HeldExists(speakers[i], synthsCreated))
    && HeldExists(recognizerRef, synthsCreated)
  }

  /** Every transcript line answers a posted message with a text that has
      content: a fallback, or a reply that passed the validity check. */
  predicate TranscriptInvariant(history: seq<Entry>, requests: seq<string>)
  {
    forall e :: e in history ==> e.userMessage in requests && HasContent(e.reply)
  }

  class Avatar {
    // the component's state (Avatar.jsx:9-16)
    var sessionActive: bool
    var chatHistory: seq<Entry>
    var speechText: string
    var isListening: bool
    var synth: Synth
    var recognizerCreated: bool
    // the synthesizer the recognizer's callbacks hold (Avatar.jsx:181-185)
    var recognizerRef: SynthRef

    // what the component asked of the outside world, and which of those
    // calls have settled (by position, or by synthesizer for avatar starts)
    var synthsCreated: nat
    var startsSettled: set<nat>
    var backendRequests: seq<string>
    var requestSpeakers: seq<SynthRef>
    var repliesSettled: set<nat>
    var speakCalls: seq<SpeakCall>
    var speaksSettled: set<nat>
    var stopRequests: seq<nat>
    var stopsSettled: set<nat>
    var recognizerConstructions: nat
    var recognizerCalls: seq<RecognizerCall>
    var alerts: nat

    /** What every handler and continuation preserves. */
    ghost predicate Valid()
      reads this
    {
      && RecognizerInvariant(recognizerCreated, recognizerConstructions, isListening, recognizerCalls)
      && SynthInvariant(synth, synthsCreated, sessionActive, speakCalls, stopRequests)
      && TranscriptInvariant(chatHistory, backendRequests)
      && HolderInvariant(backendRequests, requestSpeakers, recognizerRef, synthsCreated)
    }

    /** The component's first render (Avatar.jsx:9-16). */
    constructor ()
      ensures Valid()
      ensures !sessionActive && chatHistory == [] && speechText == "" && !isListening
      ensures synth == NoSynth && !recognizerCreated && recognizerRef == NoRef
      ensures synthsCreated == 0 && startsSettled == {}
      ensures backendRequests == [] && requestSpeakers == [] && repliesSettled == {}
      ensures speakCalls == [] && speaksSettled == {} && stopRequests == [] && stopsSettled == {}
      ensures recognizerConstructions == 0 && recognizerCalls == [] && alerts == 0
    {
      sessionActive, chatHistory, speechText, isListening := false, [], "", false;
      synth, recognizerCreated, recognizerRef := NoSynth, false, NoRef;
      synthsCreated, startsSettled := 0, {};
      backendRequests, requestSpeakers, repliesSettled := [], [], {};
      speakCalls, speaksSettled, stopRequests, stopsSettled := [], {}, [], {};
      recognizerConstructions, recognizerCalls, alerts := 0, [], 0;
    }

    /** `handleSpeechText`: the text box's contents become the input buffer. */
    method HandleSpeechText(value: string)
      requires Valid()
      modifies this`speechText
      ensures Valid()
      ensures speechText == value
    {
      speechText := value;
    }

    /** `stopSession`: asks an existing synthesizer to stop speaking (closing
        it is left to the continuation), then ends the session and clears the
        transcript, synthesizer or not. Nothing it does can fail outward, and
        the stored synthesizer stays in place. */
    method StopSession()
      requires Valid()
      modifies this`sessionActive, this`chatHistory, this`stopRequests
      ensures Valid()
      ensures !sessionActive && chatHistory == []
      ensures stopRequests == if synth.NoSynth? then old(stopRequests)
                              else old(stopRequests) + [synth.id]
    {
      if !synth.NoSynth? {
        stopRequests := stopRequests + [synth.id];
      }
      sessionActive := false;
      chatHistory := [];
    }

    /** The `k`-th stop-speaking promise resolves: the synthesizer it was
        issued on is closed. */
    method OnStopSpeakingResolved(k: nat)
      requires Valid()
      requires k < |stopRequests| && k !in stopsSettled
      modifies this`stopsSettled, this`synth
      ensures Valid()
      ensures stopsSettled == old(stopsSettled) + {k}
      ensures synth == AfterClose(old(synth), stopRequests[k])
    {
      stopsSettled := stopsSettled + {k};
      synth := AfterClose(synth, stopRequests[k]);
    }

    /** The `k`-th stop-speaking request fails, by rejecting or by throwing:
        it is logged, and the synthesizer stays as it was. */
    method OnStopSpeakingFailed(k: nat)
      requires Valid()
      requires k < |stopRequests| && k !in stopsSettled
      modifies this`stopsSettled
      ensures Valid()
      ensures stopsSettled == old(stopsSettled) + {k}
    {
      stopsSettled := stopsSettled + {k};
    }

    /** `handleSubmit`: with a session, posts the current input buffer once,
        through the closures of the current render, so its reply will be spoken
        on the synthesizer stored now; without a session, does nothing at all. */
    method HandleSubmit()
      requires Valid()
      modifies this`backendRequests, this`requestSpeakers
      ensures Valid()
      ensures sessionActive ==> backendRequests == old(backendRequests) + [speechText] &&
                                requestSpeakers == old(requestSpeakers) + [RefOf(synth)]
      ensures !sessionActive ==> backendRequests == old(backendRequests) &&
                                 requestSpeakers == old(requestSpeakers)
    {
      if sessionActive {
        SendMessageToBackend(speechText, RefOf(synth));
      }
    }

    /** `sendMessageToBackend` of a render whose `speakText` holds `speaker`:
        posts one message; its reply arrives later and is spoken on `speaker`. */
    method SendMessageToBackend(message: string, speaker: SynthRef)
      requires Valid()
      requires HeldExists(speaker, synthsCreated)
      modifies this`backendRequests, this`requestSpeakers
      ensures Valid()
      ensures backendRequests == old(backendRequests) + [message]
      ensures requestSpeakers == old(requestSpeakers) + [speaker]
    {
      backendRequests := backendRequests + [message];
      requestSpeakers := requestSpeakers + [speaker];
    }

    /** `updateChatHistory`: appends one entry after all earlier ones. */
    method UpdateChatHistory(userMessage: string, reply: string)
      requires Valid()
      requires userMessage in backendRequests && HasContent(reply)
      modifies this`chatHistory
      ensures Valid()
      ensures chatHistory == old(chatHistory) + [Entry(userMessage, reply)]
    {
      chatHistory := chatHistory + [Entry(userMessage, reply)];
    }

    /** The backend answers the `k`-th posted message with a body whose
        `response` is `reply`. A non-blank string reply is recorded as it is
        and spoken on the synthesizer the sending render held, and a sensitive
        one also clears the input buffer; anything else records the "not
        understood" fallback and speaks nothing. There is no check that the
        session is still active. */
    method OnBackendReply(k: nat, reply: Reply)
      requires Valid()
      requires k < |backendRequests| && k !in repliesSettled
      modifies this`repliesSettled, this`chatHistory, this`speechText, this`speakCalls
      ensures Valid()
      ensures repliesSettled == old(repliesSettled) + {k}
      ensures !IsValidReply(reply) ==>
        chatHistory == old(chatHistory) + [Entry(backendRequests[k], NotUnderstood)] &&
        speakCalls == old(speakCalls) && speechText == old(speechText)
      ensures IsValidReply(reply) ==>
        chatHistory == old(chatHistory) + [Entry(backendRequests[k], reply.s)]
      ensures IsValidReply(reply) && IsSensitive(reply.s) ==> speechText == ""
      ensures IsValidReply(reply) && requestSpeakers[k].NoRef? ==>
        speakCalls == old(speakCalls) &&
        speechText == (if IsSensitive(reply.s) then "" else old(speechText))
      ensures IsValidReply(reply) && requestSpeakers[k].Ref? ==>
        speakCalls == old(speakCalls) + [SpeakCall(requestSpeakers[k].id, reply.s)] &&
        speechText == ""
    {
      repliesSettled := repliesSettled + {k};
      if IsValidReply(reply) {
        RecordAndSpeak(backendRequests[k], requestSpeakers[k], reply.s);
      } else {
        FallbacksHaveContent();
        UpdateChatHistory(backendRequests[k], NotUnderstood);
      }
    }

    /** The accepted-reply branch of the backend continuation: a sensitive
        reply clears the input buffer, the reply is recorded unmodified and
        handed to `speakText` of the render that sent `message`. */
    method RecordAndSpeak(message: string, speaker: SynthRef, text: string)
      requires Valid()
      requires message in backendRequests && HasContent(text) && HeldExists(speaker, synthsCreated)
      modifies this`chatHistory, this`speechText, this`speakCalls
      ensures Valid()
      ensures chatHistory == old(chatHistory) + [Entry(message, text)]
      ensures IsSensitive(text) ==> speechText == ""
      ensures speaker.NoRef? ==>
        speakCalls == old(speakCalls) && speechText == (if IsSensitive(text) then "" else old(speechText))
      ensures speaker.Ref? ==> speakCalls == old(speakCalls) + [SpeakCall(speaker.id, text)] && speechText == ""
    {
      if IsSensitive(text) {
        speechText := "";
      }
      UpdateChatHistory(message, text);
      SpeakText(speaker, text);
    }

    /** The request for the `k`-th posted message fails: the error fallback is
        recorded and nothing is spoken. */
    method OnBackendError(k: nat)
      requires Valid()
      requires k < |backendRequests| && k !in repliesSettled
      modifies this`repliesSettled, this`chatHistory
      ensures Valid()
      ensures repliesSettled == old(repliesSettled) + {k}
      ensures chatHistory == old(chatHistory) + [Entry(backendRequests[k], BackendFailure)]
    {
      repliesSettled := repliesSettled + {k};
      FallbacksHaveContent();
      UpdateChatHistory(backendRequests[k], BackendFailure);
    }

    /** `speakText` of a render that holds `speaker`: with a synthesizer
        (open or closed), hands it the text and clears the input buffer;
        without one, only logs. */
    method SpeakText(speaker: SynthRef, text: string)
      requires Valid()
      requires HeldExists(speaker, synthsCreated)
      modifies this`speakCalls, this`speechText
      ensures Valid()
      ensures speaker.NoRef? ==> speakCalls == old(speakCalls) && speechText == old(speechText)
      ensures speaker.Ref? ==>
        speakCalls == old(speakCalls) + [SpeakCall(speaker.id, text)] && speechText == ""
    {
      if speaker.Ref? {
        speakCalls := speakCalls + [SpeakCall(speaker.id, text)];
        speechText := "";
      }
    }

    /** The `k`-th speak promise resolves, whatever the result's reason: it is
        only logged. */
    method OnSpeakResolved(k: nat, result: SpeakResult)
      requires Valid()
      requires k < |speakCalls| && k !in speaksSettled
      modifies this`speaksSettled
      ensures Valid()
      ensures speaksSettled == old(speaksSettled) + {k}
    {
      speaksSettled := speaksSettled + {k};
    }

    /** The `k`-th speak promise rejects: the synthesizer it was made on is
        closed. */
    method OnSpeakRejected(k: nat)
      requires Valid()
      requires k < |speakCalls| && k !in speaksSettled
      modifies this`speaksSettled, this`synth
      ensures Valid()
      ensures speaksSettled == old(speaksSettled) + {k}
      ensures synth == AfterClose(old(synth), speakCalls[k].synthId)
    {
      speaksSettled := speaksSettled + {k};
      synth := AfterClose(synth, speakCalls[k].synthId);
    }

    /** `startSession`, with `built` telling whether the peer-connection and
        synthesizer factories returned (each rethrows what it catches, before
        anything is stored). When they do, it creates a new synthesizer and
        stores it at once, in place of any earlier one, and asks it to start
        the avatar; when one throws, nothing changes. It neither checks nor
        changes whether a session is active, nor the transcript. */
    method StartSession(built: bool)
      requires Valid()
      modifies this`synth, this`synthsCreated
      ensures Valid()
      ensures built ==> synth == Open(old(synthsCreated)) && synthsCreated == old(synthsCreated) + 1
      ensures !built ==> synth == old(synth) && synthsCreated == old(synthsCreated)
    {
      if built {
        synth := Open(synthsCreated);
        synthsCreated := synthsCreated + 1;
      }
    }

    /** The avatar-start promise of synthesizer `id` resolves: the session
        becomes active, whatever happened since. */
    method OnAvatarStarted(id: nat)
      requires Valid()
      requires id < synthsCreated && id !in startsSettled
      modifies this`startsSettled, this`sessionActive
      ensures Valid()
      ensures startsSettled == old(startsSettled) + {id}
      ensures sessionActive
    {
      startsSettled := startsSettled + {id};
      sessionActive := true;
    }

    /** The avatar-start promise of synthesizer `id` rejects: only logged; the
        session flag and the stored synthesizer stay as they were. */
    method OnAvatarStartFailed(id: nat)
      requires Valid()
      requires id < synthsCreated && id !in startsSettled
      modifies this`startsSettled
      ensures Valid()
      ensures startsSettled == old(startsSettled) + {id}
    {
      startsSettled := startsSettled + {id};
    }

    /** `startListening`, with `supported` telling whether the browser offers
        speech recognition. Without a recognizer and without support it shows
        an alert and changes nothing else. Otherwise it builds the recognizer if
        there is none yet, its callbacks holding the synthesizer stored now,
        and then asks it to stop when listening (the flag stays set until the
        end event) or to start when not (the flag is set). */
    method StartListening(supported: bool)
      requires Valid()
      modifies this`recognizerCreated, this`recognizerRef, this`recognizerConstructions,
               this`isListening, this`recognizerCalls, this`alerts
      ensures Valid()
      ensures !old(recognizerCreated) && !supported ==>
        alerts == old(alerts) + 1 &&
        !recognizerCreated && recognizerConstructions == old(recognizerConstructions) &&
        isListening == old(isListening) && recognizerCalls == old(recognizerCalls) &&
        recognizerRef == old(recognizerRef)
      ensures old(recognizerCreated) || supported ==>
        alerts == old(alerts) &&
        recognizerCreated && recognizerConstructions == 1 && isListening &&
        recognizerRef == (if old(recognizerCreated) then old(recognizerRef) else RefOf(synth)) &&
        recognizerCalls == old(recognizerCalls) +
          [if old(isListening) then StopRecognition else StartRecognition]
    {
      if !recognizerCreated && !supported {
        alerts := alerts + 1;
      } else {
        if !recognizerCreated {
          recognizerCreated := true;
          recognizerRef := RefOf(synth);
          recognizerConstructions := recognizerConstructions + 1;
        }
        if isListening {
          recognizerCalls := recognizerCalls + [StopRecognition];
        } else {
          recognizerCalls := recognizerCalls + [StartRecognition];
          isListening := true;
        }
      }
    }

    /** The recognizer's result callback: the first transcript goes straight to
        the backend, session or not, through the closures of the render that
        built the recognizer, so its reply will be spoken on the synthesizer
        stored then. */
    method OnRecognitionResult(transcript: string)
      requires Valid()
      requires recognizerCreated
      modifies this`backendRequests, this`requestSpeakers
      ensures Valid()
      ensures backendRequests == old(backendRequests) + [transcript]
      ensures requestSpeakers == old(requestSpeakers) + [recognizerRef]
    {
      SendMessageToBackend(transcript, recognizerRef);
    }

    /** The recognizer's end callback: listening is over. */
    method OnRecognitionEnd()
      requires Valid()
      requires recognizerCreated
      modifies this`isListening
      ensures Valid()
      ensures !isListening
    {
      isListening := false;
    }
  }
}
