# CookieYes consent bridge

A Dafny model of the one component with behaviour in this contact-form site:
`CookieYes` (components/CookieYes.tsx). It does three things:

- **Banner-ID guard.** An empty ID or the placeholder `your_cookieyes_banner_id_here`
  renders nothing and installs no listener. Any other ID renders one `<Script>` element.
  Its `src` is `https://cdn-cookieyes.com/client_data/<id>/script.js`.
- **Consent mapping.** The three CookieYes categories (advertisement, analytics,
  functional) become the six Google Consent Mode v2 signals. Each signal is the
  string `"granted"` or `"denied"`.
- **Consent-update handler.** It listens for `cookieyes_consent_update`. When the
  CookieYes global and `window.dataLayer` both exist, it pushes
  `{event: "consent_update", consent: …}` onto the data layer. If `gtag` is also a
  function, it then calls `gtag("consent", "update", …)` with an equal object, built
  again from the same consent data.
  The listener is removed when the effect is cleaned up.

Modules:

- `Optional` (optional.dfy): the `Option` type.
- `ConsentMode` (consent_mode.dfy): the categories, the signals, the mapping, and
  the six-key string object.
- `BannerScript` (banner_script.dfy): the guard, the script URL and the rendered element.
- `ConsentBridge` (consent_bridge.dfy) holds the handler in two forms:
  - `Window`, a value used by the specification functions `AfterConsentUpdate`,
    `AfterMount`, `AfterCleanup`, `Dispatch` and `AfterChoices`, and by the lemmas about them;
  - the class `Env`, whose fields are the browser globals. Its methods update those
    fields in place, as the source does, and each is proved to produce the state its
    specification function gives.

The `gtag` call is nested inside the `window.dataLayer` check
(components/CookieYes.tsx:37 and :51). So without a data layer, `gtag` is never
called, even when it is a function (`HandlerWithoutDataLayer`, `ChoicesWithoutDataLayer`).

A data layer that is an empty array counts as present, because an empty JavaScript
array is truthy. In the model that is `Some([])`, not `None`.

## Model

| member | source | states |
|---|---|---|
| ConsentMode.SignalOf | components/CookieYes.tsx:41-46 | the ternary gives Granted exactly when the category is true; its string is `"granted"` iff the category is true and `"denied"` iff it is false |
| ConsentMode.SignalText | components/CookieYes.tsx:41-46 | the string sent for a signal reads back as that same signal (`"granted"`/`"denied"`) |
| ConsentMode.ParseSignal | components/CookieYes.tsx:41-46 | exactly the two strings `"granted"` and `"denied"` are signal values |
| ConsentMode.MapConsent | components/CookieYes.tsx:41-46 | each of the six signals is Granted iff its source category is true; the three ad signals agree, functionality equals personalization, and the categories can be read back from the payload |
| ConsentMode.MapConsentImage | components/CookieYes.tsx:41-46 | a payload is produced by some consent state iff its ad signals agree and its two functional signals agree |
| ConsentMode.MapConsentInjective | components/CookieYes.tsx:41-46 | distinct consent states give distinct payloads |
| ConsentMode.Fields | components/CookieYes.tsx:40-47 | the consent object has exactly the six keys ad_storage … personalization_storage, each valued `"granted"` or `"denied"` |
| ConsentMode.FieldsRoundTrip | components/CookieYes.tsx:40-47 | reading the consent object back gives the payload it was written from |
| ConsentMode.FromFieldsExact | components/CookieYes.tsx:40-47 | a six-key object that reads back as a payload is exactly that payload's object |
| ConsentMode.AdvertisingAndFunctionalExample | components/CookieYes.tsx:41-46 | advertisement and functional accepted, analytics refused: every signal granted except analytics_storage |
| BannerScript.IsConfigured | components/CookieYes.tsx:26 | the guard accepts an ID iff its script URL differs from both the bare template's URL (empty ID) and the placeholder's URL |
| BannerScript.ScriptSrc | components/CookieYes.tsx:76 | the URL is the CDN prefix, then the banner ID verbatim, then `/script.js` |
| BannerScript.SrcRoundTrip | components/CookieYes.tsx:76 | the banner ID can be read back from the URL built for it |
| BannerScript.SrcFromBannerId | components/CookieYes.tsx:76 | a URL that reads back as an ID is exactly the URL built for that ID |
| BannerScript.ScriptSrcInjective | components/CookieYes.tsx:76 | different banner IDs load different script URLs |
| BannerScript.Render | components/CookieYes.tsx:26-28 | nothing is rendered iff the ID is empty or the placeholder; otherwise one element with id `cookieyes`, strategy `beforeInteractive` and the templated `src` (lines 73-79) |
| ConsentBridge.ConsentRecord | components/CookieYes.tsx:38-48 | the pushed record has event `"consent_update"` and a coherent consent object from which the consent state can be read back |
| ConsentBridge.ConsentCall | components/CookieYes.tsx:52-59 | the `gtag` call is `("consent", "update", p)`, where p equals the consent object of the record pushed for the same state |
| ConsentBridge.AfterConsentUpdate | components/CookieYes.tsx:32-63 | one handler run leaves the CookieYes global, `gtag` and the listener alone, never creates or removes the data layer, only appends to it and to the `gtag` log (at most one item each), and calls `gtag` only in a run that also pushed a record |
| ConsentBridge.AfterMount | components/CookieYes.tsx:26-30 | after mounting the listener is registered iff it already was or the ID is neither empty nor the placeholder; nothing else changes |
| ConsentBridge.AfterCleanup | components/CookieYes.tsx:68-70 | cleanup unregisters the listener, changes nothing else, and makes a later event a no-op |
| ConsentBridge.Dispatch | components/CookieYes.tsx:66 | firing the event never changes the registration or the CookieYes state; with no listener it changes nothing; with a listener and both globals it adds one data-layer entry |
| ConsentBridge.AfterChoice | components/CookieYes.tsx:33-48 | the banner's new choice becomes the state `getConsent()` reports; it reaches the data layer and `gtag` only through a registered listener, and then as the record `{event: "consent_update", consent: MapConsent(c)}` |
| ConsentBridge.HandlerWithoutCookieYes | components/CookieYes.tsx:33 | without the CookieYes global the handler changes nothing |
| ConsentBridge.HandlerWithoutDataLayer | components/CookieYes.tsx:37-61 | without the data layer there is no push and no `gtag` call, even when `gtag` is a function |
| ConsentBridge.HandlerAppendsOneRecord | components/CookieYes.tsx:37-48 | with both globals present, exactly one record `{event: "consent_update", consent: MapConsent(c)}` is appended at the end, and earlier entries are unchanged |
| ConsentBridge.HandlerGtagCall | components/CookieYes.tsx:51-59 | `gtag` is called at most once per event, only when CookieYes, the data layer and a `gtag` function are all present, and then with `("consent", "update", p)`, where p is the consent object just pushed |
| ConsentBridge.MountRegistersIffConfigured | components/CookieYes.tsx:26-30 | mounting registers the listener iff the ID passes the guard; a failing ID renders nothing and leaves the state as it was |
| ConsentBridge.RecordsAndCallsAt | components/CookieYes.tsx:38-59 | the i-th expected record and `gtag` call are those of the i-th consent choice |
| ConsentBridge.ChoicesRecorded | components/CookieYes.tsx:37-48 | while listening with a data layer, a run of consent changes appends one `consent_update` record per change, in order, after the entries already there |
| ConsentBridge.ChoicesCalled | components/CookieYes.tsx:51-59 | while listening with a data layer, a run of consent changes makes one `gtag("consent", "update", …)` call per change, in order, when `gtag` is a function, and none otherwise |
| ConsentBridge.ChoicesWithoutDataLayer | components/CookieYes.tsx:37-61 | without a data layer, no number of consent changes pushes anything or calls `gtag` |
| ConsentBridge.ChoicesIgnoredWhenNotListening | components/CookieYes.tsx:66-70 | with no registered listener, consent changes change neither the data layer nor the `gtag` log |
| ConsentBridge.ChoicesIgnoredAfterCleanup | components/CookieYes.tsx:68-70 | after the effect's cleanup, later consent changes change neither output channel |
| ConsentBridge.ChoicesIgnoredWhenUnconfigured | components/CookieYes.tsx:26-28 | a component mounted with an empty or placeholder ID never reacts to consent changes |
| ConsentBridge.HandlerKeepsMirrored | components/CookieYes.tsx:38-59 | each handler run keeps the `gtag` log's consent updates equal, in order, to the data layer's `consent_update` records |
| ConsentBridge.ChoicesKeepMirrored | components/CookieYes.tsx:38-59 | any run of consent changes keeps the two channels in agreement |
| ConsentBridge.Env.constructor | components/CookieYes.tsx:11-23 | a page before mounting: the given globals, no listener and an empty `gtag` log |
| ConsentBridge.Env.Mount | components/CookieYes.tsx:25-30 | returns the rendered element, and registers the listener iff the ID passes the guard |
| ConsentBridge.Env.Cleanup | components/CookieYes.tsx:68-70 | the listener is unregistered and nothing else changes |
| ConsentBridge.Env.HandleConsentUpdate | components/CookieYes.tsx:32-63 | the in-place handler produces the state `AfterConsentUpdate` gives, and is a no-op when either global is missing |
| ConsentBridge.Env.DispatchConsentUpdate | components/CookieYes.tsx:66 | firing the event runs the handler only when it is registered, and otherwise changes nothing |

## Left out

- Loading the script through Next.js `Script` (components/CookieYes.tsx:74-78) is browser and framework I/O. Only the element's attributes are modelled.
- React hook semantics are not modelled. Mount and cleanup are two operations that set a registration flag. One component instance is modelled, whose effect (empty dependency list) runs at most once between cleanups. Registration is a flag, not a set of handler closures. A second `Env.Mount` without a `Cleanup` in between therefore still leaves one listener, where the browser would hold two closures and run the handler twice per event. The early return placed before `useEffect` is modelled only for its effect: no listener is registered.
- The DOM event system is reduced to `Dispatch`. It runs the handler when registered. The event carries no payload and the handler reads none.
- `window.cookieyes.getConsent()` is third-party code. Its result is the `cookieyes` field, and `AfterChoice` models the banner storing a new choice before firing the event.
- The GTM and `gtag` runtimes are third-party code. `gtag` is a flag saying whether it is a function, plus a log of the calls made to it. Data-layer entries put there by other scripts are opaque `Foreign` entries.
- `gtag` is assumed to return normally and to write nothing but its own call log. The usual Consent Mode v2 definition of `gtag` pushes its `arguments` onto `window.dataLayer`. With that definition, each handler run with a `gtag` function would add a second data-layer entry after the record. So the data-layer statements of `HandlerAppendsOneRecord`, `Dispatch`, `ChoicesRecorded` and `Mirrored`/`ChoicesKeepMirrored` count only the handler's own push.
- ChoicesRecorded, ChoicesCalled and ChoicesWithoutDataLayer describe runs in which no other script creates or removes `window.dataLayer` or redefines `gtag` between events; only the banner's choice changes. The single-event lemmas read both globals at event time, as the handler does.
- The `gtag` call receives an object equal to the pushed one, but the source builds it as a second object literal (components/CookieYes.tsx:52-59). The model compares values, so object identity is not modelled.
- The banner ID is a string. A missing (`undefined`) prop, which the guard would also reject, is outside the model.
- app/layout.tsx and app/page.tsx are static JSX composition and are not part of this model. The same goes for `GoogleTagManager`, `GoogleTagManagerNoScript` and `ContactForm`, whose code is not part of this model either.
