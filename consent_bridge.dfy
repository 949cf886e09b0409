/**
 * The effect half of the CookieYes component: the `cookieyes_consent_update`
 * listener that republishes the banner's consent state to Google Tag Manager,
 * once as a data-layer record and once as a `gtag('consent', 'update', ...)` call.
 *
 * The browser globals the handler reads and writes are gathered in `Window`
 * (a value, used by the specification functions and lemmas) and in `Env`
 * (the object whose fields the handler updates in place).
 */
module ConsentBridge {
  import opened Optional
  import opened ConsentMode
  import opened BannerScript

  /** The `event` field of the record the handler pushes. */
  const ConsentUpdateTag: string := "consent_update"
  /** The first two arguments of the `gtag` call. */
  const GtagCommand: string := "consent"
  const GtagAction: string := "update"

  /**
   * One entry of `window.dataLayer`: a record with an `event` name and a consent
   * object, or an entry put there by some other script.
   */
  datatype Entry = Record(event: string, consent: ConsentPayload) | Foreign(origin: string)

  /** One logged call `gtag(command, action, params)`. */
  datatype GtagCall = GtagCall(command: string, action: string, params: ConsentPayload)

  /**
   * The browser state the bridge can see. `cookieyes` is what `getConsent()`
   * would return, or None while the CookieYes global is absent; `dataLayer` is
   * None while `window.dataLayer` is absent (an empty array is present);
   * `gtagIsFunction` is `typeof window.gtag === 'function'`; `gtagCalls` logs
   * the calls made to `gtag`; `listening` says whether the component's handler
   * is registered for the `cookieyes_consent_update` event
   * that CookieYes fires on the document when the visitor changes consent.
   */
  datatype Window = Window(
    cookieyes: Option<ConsentState>,
    dataLayer: Option<seq<Entry>>,
    gtagIsFunction: bool,
    gtagCalls: seq<GtagCall>,
    listening: bool)

  /** The record pushed for a consent state; the state can be read back from it. */
  function ConsentRecord(c: ConsentState): (e: Entry)
    ensures e.Record? && e.event == "consent_update"
    ensures Coherent(e.consent) && CategoriesOf(e.consent) == c
  {
    Record(ConsentUpdateTag, MapConsent(c))
  }

  /** The `gtag` call made for a consent state; it carries the same payload as the record. */
  function ConsentCall(c: ConsentState): (g: GtagCall)
    ensures g.command == "consent" && g.action == "update"
    ensures g.params == ConsentRecord(c).consent
  {
    GtagCall(GtagCommand, GtagAction, MapConsent(c))
  }

  /**
   * The state after the handler runs once. It never touches the CookieYes
   * global, `gtag` itself or the listener, never creates or removes the data
   * layer, only appends to the data layer and to the `gtag` log (at most one
   * item each), and calls `gtag` only in a run that also pushed a record.
   */
  function AfterConsentUpdate(w: Window): (r: Window)
    ensures r.cookieyes == w.cookieyes && r.gtagIsFunction == w.gtagIsFunction && r.listening == w.listening
    ensures r.dataLayer.Some? == w.dataLayer.Some?
    ensures w.dataLayer.Some? ==>
      w.dataLayer.value <= r.dataLayer.value && |r.dataLayer.value| <= |w.dataLayer.value| + 1
    ensures w.gtagCalls <= r.gtagCalls && |r.gtagCalls| <= |w.gtagCalls| + 1
    ensures r.gtagCalls != w.gtagCalls ==> r.dataLayer != w.dataLayer
  {
    match w.cookieyes
    case None => w
    case Some(c) =>
      match w.dataLayer
      case None => w
      case Some(entries) =>
        w.(dataLayer := Some(entries + [ConsentRecord(c)]),
           gtagCalls := if w.gtagIsFunction then w.gtagCalls + [ConsentCall(c)] else w.gtagCalls)
  }

  /** The state after the component mounts with a banner ID (render, then effect). */
  function AfterMount(w: Window, bannerId: string): (r: Window)
    ensures r.listening <==> w.listening || (bannerId != "" && bannerId != Placeholder)
    ensures r.(listening := w.listening) == w
  {
    if IsConfigured(bannerId) then w.(listening := true) else w
  }

  /** The state after the effect's cleanup removes the listener: later events are no-ops. */
  function AfterCleanup(w: Window): (r: Window)
    ensures !r.listening && r.(listening := w.listening) == w
    ensures Dispatch(r) == r
  {
    w.(listening := false)
  }

  /** The state after `cookieyes_consent_update` is fired on the document. */
  function Dispatch(w: Window): (r: Window)
    ensures r.listening == w.listening && r.cookieyes == w.cookieyes
    ensures !w.listening ==> r == w
    ensures w.listening && w.cookieyes.Some? && w.dataLayer.Some? ==>
      r.dataLayer.Some? && |r.dataLayer.value| == |w.dataLayer.value| + 1
  {
    if w.listening then AfterConsentUpdate(w) else w
  }

  /** Without the CookieYes global the handler does nothing. */
  lemma HandlerWithoutCookieYes(w: Window)
    requires w.cookieyes.None?
    ensures AfterConsentUpdate(w) == w
  {
  }

  /** Without the data layer the handler does nothing, even when `gtag` is a function. */
  lemma HandlerWithoutDataLayer(w: Window)
    requires w.dataLayer.None?
    ensures AfterConsentUpdate(w) == w
  {
  }

  /**
   * With both globals present the handler appends exactly one record, the mapped
   * consent of the current state, and leaves every earlier entry in place.
   */
  lemma HandlerAppendsOneRecord(w: Window)
    requires w.cookieyes.Some? && w.dataLayer.Some?
    ensures var w' := AfterConsentUpdate(w);
      && w'.dataLayer.Some?
      && |w'.dataLayer.value| == |w.dataLayer.value| + 1
      && w'.dataLayer.value[..|w.dataLayer.value|] == w.dataLayer.value
      && w'.dataLayer.value[|w.dataLayer.value|] == Record("consent_update", MapConsent(w.cookieyes.value))
      && w'.cookieyes == w.cookieyes && w'.gtagIsFunction == w.gtagIsFunction && w'.listening == w.listening
  {
  }

  /**
   * `gtag` is called at most once per event, only when both globals are present
   * and `gtag` is a function, and then with the payload just pushed.
   */
  lemma HandlerGtagCall(w: Window)
    ensures var w' := AfterConsentUpdate(w);
      && w'.gtagCalls[..|w.gtagCalls|] == w.gtagCalls
      && (|w'.gtagCalls| == |w.gtagCalls| + 1 <==>
            w.cookieyes.Some? && w.dataLayer.Some? && w.gtagIsFunction)
      && (|w'.gtagCalls| != |w.gtagCalls| + 1 ==> w'.gtagCalls == w.gtagCalls)
      && (|w'.gtagCalls| == |w.gtagCalls| + 1 ==>
            && w'.gtagCalls[|w.gtagCalls|].command == "consent"
            && w'.gtagCalls[|w.gtagCalls|].action == "update"
            && w'.dataLayer.Some? && w'.dataLayer.value != []
            && w'.gtagCalls[|w.gtagCalls|].params == w'.dataLayer.value[|w'.dataLayer.value| - 1].consent)
  {
  }

  /** Mounting registers the listener exactly when the banner ID passes the guard. */
  lemma MountRegistersIffConfigured(w: Window, bannerId: string)
    ensures AfterMount(w, bannerId).listening <==> w.listening || IsConfigured(bannerId)
    ensures !IsConfigured(bannerId) ==> AfterMount(w, bannerId) == w
    ensures (Render(bannerId).Some? <==> IsConfigured(bannerId))
  {
  }

  // ---------------------------------------------------------------------------
  // Sequences of consent changes

  /**
   * The banner stores the visitor's new choice and fires the event. The choice
   * reaches the data layer and `gtag` only through a registered listener.
   */
  function AfterChoice(w: Window, c: ConsentState): (r: Window)
    ensures r.cookieyes == Some(c)
    ensures r.listening == w.listening && r.gtagIsFunction == w.gtagIsFunction
    ensures !w.listening ==> r.dataLayer == w.dataLayer && r.gtagCalls == w.gtagCalls
    ensures w.listening && w.dataLayer.Some? ==>
      r.dataLayer == Some(w.dataLayer.value + [Record("consent_update", MapConsent(c))])
  {
    Dispatch(w.(cookieyes := Some(c)))
  }

  /** The state after the visitor makes the given choices one after the other. */
  function AfterChoices(w: Window, cs: seq<ConsentState>): Window
    decreases |cs|
  {
    if cs == [] then w else AfterChoices(AfterChoice(w, cs[0]), cs[1..])
  }

  /** The records the choices are expected to push, in order. */
  function Records(cs: seq<ConsentState>): seq<Entry>
    decreases |cs|
  {
    if cs == [] then [] else [ConsentRecord(cs[0])] + Records(cs[1..])
  }

  /** The `gtag` calls the choices are expected to make, in order. */
  function Calls(cs: seq<ConsentState>): seq<GtagCall>
    decreases |cs|
  {
    if cs == [] then [] else [ConsentCall(cs[0])] + Calls(cs[1..])
  }

  /** The i-th expected record and call are those of the i-th choice. */
  lemma {:induction false} RecordsAndCallsAt(cs: seq<ConsentState>, i: nat)
    requires i < |cs|
    ensures |Records(cs)| == |Calls(cs)| == |cs|
    ensures Records(cs)[i] == ConsentRecord(cs[i])
    ensures Calls(cs)[i] == ConsentCall(cs[i])
    decreases |cs|
  {
    if i == 0 {
      RecordsAndCallsLength(cs);
    } else {
      RecordsAndCallsAt(cs[1..], i - 1);
    }
  }

  lemma {:induction false} RecordsAndCallsLength(cs: seq<ConsentState>)
    ensures |Records(cs)| == |Calls(cs)| == |cs|
    decreases |cs|
  {
    if cs != [] {
      RecordsAndCallsLength(cs[1..]);
    }
  }

  /** One choice while listening with a data layer: one record, and one call if `gtag` is a function. */
  lemma ChoiceStep(w: Window, c: ConsentState)
    requires w.listening && w.dataLayer.Some?
    ensures var w' := AfterChoice(w, c);
      && w'.dataLayer == Some(w.dataLayer.value + [ConsentRecord(c)])
      && w'.gtagCalls == w.gtagCalls + (if w.gtagIsFunction then [ConsentCall(c)] else [])
      && w'.listening && w'.gtagIsFunction == w.gtagIsFunction
  {
  }

  /**
   * While the listener is registered and the data layer exists, every choice
   * pushes its record, in order, after the entries already there.
   */
  lemma {:induction false} ChoicesRecorded(w: Window, cs: seq<ConsentState>)
    requires w.listening && w.dataLayer.Some?
    ensures AfterChoices(w, cs).dataLayer == Some(w.dataLayer.value + Records(cs))
    ensures AfterChoices(w, cs).listening
    ensures AfterChoices(w, cs).gtagIsFunction == w.gtagIsFunction
    decreases |cs|
  {
    if cs == [] {
      assert w.dataLayer.value + [] == w.dataLayer.value;
    } else {
      var w1 := AfterChoice(w, cs[0]);
      var entries := w.dataLayer.value;
      assert w1.dataLayer.value == entries + [ConsentRecord(cs[0])];
      ChoicesRecorded(w1, cs[1..]);
      assert AfterChoices(w, cs) == AfterChoices(w1, cs[1..]);
      assert Records(cs) == [ConsentRecord(cs[0])] + Records(cs[1..]);
      assert entries + [ConsentRecord(cs[0])] + Records(cs[1..]) == entries + Records(cs);
    }
  }

  /**
   * Under the same conditions, every choice calls `gtag` once, in order, when
   * `gtag` is a function, and never otherwise.
   */
  lemma {:induction false} ChoicesCalled(w: Window, cs: seq<ConsentState>)
    requires w.listening && w.dataLayer.Some?
    ensures AfterChoices(w, cs).gtagCalls == w.gtagCalls + (if w.gtagIsFunction then Calls(cs) else [])
    decreases |cs|
  {
    if cs == [] {
      assert w.gtagCalls + [] == w.gtagCalls;
    } else {
      var w1 := AfterChoice(w, cs[0]);
      var calls := w.gtagCalls;
      ChoiceStep(w, cs[0]);
      ChoicesCalled(w1, cs[1..]);
      assert AfterChoices(w, cs) == AfterChoices(w1, cs[1..]);
      assert Calls(cs) == [ConsentCall(cs[0])] + Calls(cs[1..]);
      if w.gtagIsFunction {
        assert calls + [ConsentCall(cs[0])] + Calls(cs[1..]) == calls + Calls(cs);
      } else {
        assert calls + [] == calls;
      }
    }
  }

  /** Without the data layer, no choice pushes anything or calls `gtag`. */
  lemma {:induction false} ChoicesWithoutDataLayer(w: Window, cs: seq<ConsentState>)
    requires w.dataLayer.None?
    ensures AfterChoices(w, cs).dataLayer.None?
    ensures AfterChoices(w, cs).gtagCalls == w.gtagCalls
    ensures AfterChoices(w, cs).listening == w.listening
    decreases |cs|
  {
    if cs != [] {
      ChoicesWithoutDataLayer(AfterChoice(w, cs[0]), cs[1..]);
    }
  }

  /** Once the listener is removed, later choices change neither output channel. */
  lemma {:induction false} ChoicesIgnoredWhenNotListening(w: Window, cs: seq<ConsentState>)
    requires !w.listening
    ensures AfterChoices(w, cs).dataLayer == w.dataLayer
    ensures AfterChoices(w, cs).gtagCalls == w.gtagCalls
    ensures !AfterChoices(w, cs).listening
    decreases |cs|
  {
    if cs != [] {
      ChoicesIgnoredWhenNotListening(AfterChoice(w, cs[0]), cs[1..]);
    }
  }

  /** After cleanup, consent changes no longer reach the data layer or `gtag`. */
  lemma ChoicesIgnoredAfterCleanup(w: Window, cs: seq<ConsentState>)
    ensures AfterChoices(AfterCleanup(w), cs).dataLayer == w.dataLayer
    ensures AfterChoices(AfterCleanup(w), cs).gtagCalls == w.gtagCalls
  {
    ChoicesIgnoredWhenNotListening(AfterCleanup(w), cs);
  }

  /**
   * A component mounted with an empty or placeholder banner ID on a page where
   * nothing listens leaves consent changes without effect.
   */
  lemma ChoicesIgnoredWhenUnconfigured(w: Window, bannerId: string, cs: seq<ConsentState>)
    requires !w.listening && !IsConfigured(bannerId)
    ensures AfterChoices(AfterMount(w, bannerId), cs).dataLayer == w.dataLayer
    ensures AfterChoices(AfterMount(w, bannerId), cs).gtagCalls == w.gtagCalls
  {
    ChoicesIgnoredWhenNotListening(AfterMount(w, bannerId), cs);
  }

  // ---------------------------------------------------------------------------
  // The two channels agree

  /** The consent objects of the `consent_update` records of a data layer, in order. */
  function PushedConsents(entries: seq<Entry>): seq<ConsentPayload>
    decreases |entries|
  {
    if entries == [] then []
    else
      (match entries[0]
       case Record(event, consent) => if event == ConsentUpdateTag then [consent] else []
       case Foreign(_) => [])
      + PushedConsents(entries[1..])
  }

  /** The parameters of the `gtag('consent', 'update', ...)` calls of a log, in order. */
  function UpdatedConsents(calls: seq<GtagCall>): seq<ConsentPayload>
    decreases |calls|
  {
    if calls == [] then []
    else
      (if calls[0].command == GtagCommand && calls[0].action == GtagAction then [calls[0].params] else [])
      + UpdatedConsents(calls[1..])
  }

  lemma {:induction false} PushedConsentsAppend(entries: seq<Entry>, c: ConsentState)
    ensures PushedConsents(entries + [ConsentRecord(c)]) == PushedConsents(entries) + [MapConsent(c)]
    decreases |entries|
  {
    if entries == [] {
      assert entries + [ConsentRecord(c)] == [ConsentRecord(c)];
    } else {
      assert (entries + [ConsentRecord(c)])[1..] == entries[1..] + [ConsentRecord(c)];
      PushedConsentsAppend(entries[1..], c);
    }
  }

  lemma {:induction false} UpdatedConsentsAppend(calls: seq<GtagCall>, c: ConsentState)
    ensures UpdatedConsents(calls + [ConsentCall(c)]) == UpdatedConsents(calls) + [MapConsent(c)]
    decreases |calls|
  {
    if calls == [] {
      assert calls + [ConsentCall(c)] == [ConsentCall(c)];
    } else {
      assert (calls + [ConsentCall(c)])[1..] == calls[1..] + [ConsentCall(c)];
      UpdatedConsentsAppend(calls[1..], c);
    }
  }

  /**
   * Where `gtag` is a function and the data layer exists, `gtag` has received
   * exactly the consent objects of the data layer's `consent_update` records,
   * in the same order.
   */
  predicate Mirrored(w: Window)
  {
    w.gtagIsFunction && w.dataLayer.Some? ==>
      UpdatedConsents(w.gtagCalls) == PushedConsents(w.dataLayer.value)
  }

  /** Each run of the handler keeps the two channels in agreement. */
  lemma HandlerKeepsMirrored(w: Window)
    requires Mirrored(w)
    ensures Mirrored(AfterConsentUpdate(w))
  {
    if w.cookieyes.Some? && w.dataLayer.Some? && w.gtagIsFunction {
      PushedConsentsAppend(w.dataLayer.value, w.cookieyes.value);
      UpdatedConsentsAppend(w.gtagCalls, w.cookieyes.value);
    }
  }

  /** Any sequence of consent changes keeps the two channels in agreement. */
  lemma {:induction false} ChoicesKeepMirrored(w: Window, cs: seq<ConsentState>)
    requires Mirrored(w)
    ensures Mirrored(AfterChoices(w, cs))
    decreases |cs|
  {
    if cs != [] {
      var w0 := w.(cookieyes := Some(cs[0]));
      if w0.listening {
        HandlerKeepsMirrored(w0);
      }
      ChoicesKeepMirrored(AfterChoice(w, cs[0]), cs[1..]);
    }
  }

  // ---------------------------------------------------------------------------
  // The browser globals as an object the handler updates in place

  class Env {
    var cookieyes: Option<ConsentState>
    var dataLayer: Option<seq<Entry>>
    var gtagIsFunction: bool
    var gtagCalls: seq<GtagCall>
    var listening: bool

    /** The current globals as a value. */
    function State(): Window
      reads this
    {
      Window(cookieyes, dataLayer, gtagIsFunction, gtagCalls, listening)
    }

    /** A page before the component mounts: no listener, no `gtag` calls yet. */
    constructor (cookieyes: Option<ConsentState>, dataLayer: Option<seq<Entry>>, gtagIsFunction: bool)
      ensures State() == Window(cookieyes, dataLayer, gtagIsFunction, [], false)
    {
      this.cookieyes := cookieyes;
      this.dataLayer := dataLayer;
      this.gtagIsFunction := gtagIsFunction;
      this.gtagCalls := [];
      this.listening := false;
    }

    /**
     * Renders the component and runs its effect: an empty or placeholder ID
     * returns nothing before the effect is reached, so no listener is added.
     */
    method Mount(bannerId: string) returns (script: Option<ScriptElement>)
      modifies this
      ensures script == Render(bannerId)
      ensures script.Some? <==> IsConfigured(bannerId)
      ensures State() == AfterMount(old(State()), bannerId)
    {
      if bannerId == "" || bannerId == Placeholder {
        return None;
      }
      listening := true;
      script := Some(ScriptElement(ScriptElementId, CdnPrefix + bannerId + ScriptSuffix, LoadStrategy));
    }

    /** The effect's cleanup: removes the listener. */
    method Cleanup()
      modifies this
      ensures State() == AfterCleanup(old(State()))
      ensures !listening
    {
      listening := false;
    }

    /** The consent-update handler, with the source's nested guards. */
    method HandleConsentUpdate()
      modifies this
      ensures State() == AfterConsentUpdate(old(State()))
      ensures old(cookieyes).None? || old(dataLayer).None? ==> State() == old(State())
    {
      if cookieyes.Some? {
        var consentData := cookieyes.value;
        if dataLayer.Some? {
          dataLayer := Some(dataLayer.value + [Record(ConsentUpdateTag, MapConsent(consentData))]);
          if gtagIsFunction {
            gtagCalls := gtagCalls + [GtagCall(GtagCommand, GtagAction, MapConsent(consentData))];
          }
        }
      }
    }

    /** Fires `cookieyes_consent_update` on the document: the handler runs only if registered. */
    method DispatchConsentUpdate()
      modifies this
      ensures State() == Dispatch(old(State()))
      ensures !old(listening) ==> State() == old(State())
    {
      if listening {
        HandleConsentUpdate();
      }
    }
  }
}
