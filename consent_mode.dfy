/**
 * The consent vocabulary of the bridge in components/CookieYes.tsx: the three
 * CookieYes categories on one side and the six Google Consent Mode v2 signals on
 * the other, with the string object that carries the signals on the wire.
 */
module ConsentMode {
  import opened Optional

  /** What `window.cookieyes.getConsent()` reports: one flag per CookieYes category. */
  datatype ConsentState = ConsentState(advertisement: bool, analytics: bool, functional: bool)

  /** The value of one Consent Mode signal. */
  datatype Signal = Granted | Denied

  /** The literal string a signal is sent as. */
  function SignalText(s: Signal): (t: string)
    ensures ParseSignal(t) == Some(s)
  {
    match s
    case Granted => "granted"
    case Denied => "denied"
  }

  /** Reads a signal back from its literal string; any other string is not a signal. */
  function ParseSignal(t: string): (r: Option<Signal>)
    ensures r.Some? <==> t == "granted" || t == "denied"
  {
    if t == "granted" then Some(Granted)
    else if t == "denied" then Some(Denied)
    else None
  }

  /** `flag ? 'granted' : 'denied'`: granted exactly when the category is accepted. */
  function SignalOf(flag: bool): (s: Signal)
    ensures s == Granted <==> flag
    ensures SignalText(s) == "granted" <==> flag
    ensures SignalText(s) == "denied" <==> !flag
  {
    if flag then Granted else Denied
  }

  /** The six keys of the consent object, in the order the source writes them. */
  datatype ConsentPayload = ConsentPayload(
    adStorage: Signal,
    adUserData: Signal,
    adPersonalization: Signal,
    analyticsStorage: Signal,
    functionalityStorage: Signal,
    personalizationStorage: Signal)

  /**
   * A payload that some consent state can produce: the three advertising
   * signals agree, and so do the two functional ones.
   */
  predicate Coherent(p: ConsentPayload)
  {
    && p.adStorage == p.adUserData == p.adPersonalization
    && p.functionalityStorage == p.personalizationStorage
  }

  /** The categories a coherent payload was made from. */
  function CategoriesOf(p: ConsentPayload): ConsentState
  {
    ConsentState(p.adStorage == Granted, p.analyticsStorage == Granted, p.functionalityStorage == Granted)
  }

  /** The category-to-signal mapping the consent-update handler applies. */
  function MapConsent(c: ConsentState): (p: ConsentPayload)
    ensures p.adStorage == Granted <==> c.advertisement
    ensures p.adUserData == Granted <==> c.advertisement
    ensures p.adPersonalization == Granted <==> c.advertisement
    ensures p.analyticsStorage == Granted <==> c.analytics
    ensures p.functionalityStorage == Granted <==> c.functional
    ensures p.personalizationStorage == Granted <==> c.functional
    ensures Coherent(p)
    ensures CategoriesOf(p) == c
  {
    var ad := SignalOf(c.advertisement);
    var fn := SignalOf(c.functional);
    ConsentPayload(ad, ad, ad, SignalOf(c.analytics), fn, fn)
  }

  /** The payloads the mapping produces are exactly the coherent ones. */
  lemma MapConsentImage(p: ConsentPayload)
    ensures Coherent(p) <==> exists c :: MapConsent(c) == p
  {
    if Coherent(p) {
      assert MapConsent(CategoriesOf(p)) == p;
    }
  }

  /** Distinct consent states never yield the same payload. */
  lemma MapConsentInjective(c1: ConsentState, c2: ConsentState)
    requires MapConsent(c1) == MapConsent(c2)
    ensures c1 == c2
  {
  }

  /** The six property names of the consent object. */
  const SignalKeys: set<string> := {
    "ad_storage", "ad_user_data", "ad_personalization",
    "analytics_storage", "functionality_storage", "personalization_storage"
  }

  /** The consent object as the JavaScript literal spells it: six keys, string values. */
  function Fields(p: ConsentPayload): (m: map<string, string>)
    ensures m.Keys == SignalKeys
    ensures m.Values <= {"granted", "denied"}
  {
    map[
      "ad_storage" := SignalText(p.adStorage),
      "ad_user_data" := SignalText(p.adUserData),
      "ad_personalization" := SignalText(p.adPersonalization),
      "analytics_storage" := SignalText(p.analyticsStorage),
      "functionality_storage" := SignalText(p.functionalityStorage),
      "personalization_storage" := SignalText(p.personalizationStorage)]
  }

  /** Reads a consent object back: every key present with a signal string, or nothing. */
  function FromFields(m: map<string, string>): Option<ConsentPayload>
  {
    if SignalKeys <= m.Keys
       && ParseSignal(m["ad_storage"]).Some?
       && ParseSignal(m["ad_user_data"]).Some?
       && ParseSignal(m["ad_personalization"]).Some?
       && ParseSignal(m["analytics_storage"]).Some?
       && ParseSignal(m["functionality_storage"]).Some?
       && ParseSignal(m["personalization_storage"]).Some?
    then
      Some(ConsentPayload(
        ParseSignal(m["ad_storage"]).value,
        ParseSignal(m["ad_user_data"]).value,
        ParseSignal(m["ad_personalization"]).value,
        ParseSignal(m["analytics_storage"]).value,
        ParseSignal(m["functionality_storage"]).value,
        ParseSignal(m["personalization_storage"]).value))
    else None
  }

  /** Reading back the object written for a payload gives that payload. */
  lemma FieldsRoundTrip(p: ConsentPayload)
    ensures FromFields(Fields(p)) == Some(p)
  {
  }

  /** A six-key object that reads back as a payload is exactly that payload's object. */
  lemma FromFieldsExact(m: map<string, string>, p: ConsentPayload)
    requires m.Keys == SignalKeys
    requires FromFields(m) == Some(p)
    ensures Fields(p) == m
  {
    forall k | k in m
      ensures ParseSignal(m[k]).Some? && SignalText(ParseSignal(m[k]).value) == m[k]
    {
    }
    assert Fields(p).Keys == m.Keys;
  }

  /** The example of a visitor who accepts advertising and functional cookies only. */
  lemma AdvertisingAndFunctionalExample()
    ensures Fields(MapConsent(ConsentState(true, false, true))) == map[
      "ad_storage" := "granted",
      "ad_user_data" := "granted",
      "ad_personalization" := "granted",
      "analytics_storage" := "denied",
      "functionality_storage" := "granted",
      "personalization_storage" := "granted"]
  {
  }
}
