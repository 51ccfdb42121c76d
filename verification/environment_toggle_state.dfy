/**
 * The connect screen's switch between the DEV and UAT websocket URLs. The button is labelled
 * with the environment a press switches TO: "UAT" while on the DEV URL, "DEV" otherwise.
 */
module EnvironmentToggleState {
  import opened Options

  datatype EnvToggle = EnvToggle(devUrl: string, uatUrl: string, currentUrl: string)

  /** The constructor; `initialUrl` defaults to the DEV URL. */
  function Create(devUrl: string, uatUrl: string, initialUrl: Option<string>): (r: EnvToggle)
    ensures r.devUrl == devUrl && r.uatUrl == uatUrl
    ensures initialUrl.None? ==> r.currentUrl == devUrl
    ensures initialUrl.Some? ==> r.currentUrl == initialUrl.value
  {
    EnvToggle(devUrl, uatUrl, initialUrl.GetOr(devUrl))
  }

  function ToggleButtonLabel(t: EnvToggle): (text: string)
    ensures text == "UAT" <==> t.currentUrl == t.devUrl
    ensures text == "UAT" || text == "DEV"
  {
    if t.currentUrl == t.devUrl then "UAT" else "DEV"
  }

  /** The state after `toggle()`, and the URL it returns. */
  datatype Toggled = Toggled(state: EnvToggle, url: string)

  function Toggle(t: EnvToggle): (r: Toggled)
    ensures r.url == r.state.currentUrl
    ensures r.state.devUrl == t.devUrl && r.state.uatUrl == t.uatUrl
    ensures t.currentUrl == t.devUrl ==> r.url == t.uatUrl
    ensures t.currentUrl != t.devUrl ==> r.url == t.devUrl
  {
    var next := if t.currentUrl == t.devUrl then t.uatUrl else t.devUrl;
    Toggled(t.(currentUrl := next), next)
  }

  /** Whatever URL the state started on, one toggle lands on one of the two known URLs. */
  lemma ToggleLandsOnKnownUrl(t: EnvToggle)
    ensures Toggle(t).url == t.devUrl || Toggle(t).url == t.uatUrl
  {
  }

  /** The default state shows the DEV URL and offers "UAT". */
  lemma DefaultState(devUrl: string, uatUrl: string)
    ensures Create(devUrl, uatUrl, None).currentUrl == devUrl
    ensures ToggleButtonLabel(Create(devUrl, uatUrl, None)) == "UAT"
  {
  }

  /** Pressing the button `n` times. */
  function ToggleTimes(t: EnvToggle, n: nat): EnvToggle
    decreases n
  {
    if n == 0 then t else Toggle(ToggleTimes(t, n - 1)).state
  }

  /**
   * With distinct URLs, starting from DEV the state alternates: an even number of presses is
   * back on DEV (label "UAT"), an odd number is on UAT (label "DEV").
   */
  lemma {:induction false} ToggleAlternates(t: EnvToggle, n: nat)
    requires t.currentUrl == t.devUrl && t.devUrl != t.uatUrl
    ensures var u := ToggleTimes(t, n);
            && u.devUrl == t.devUrl && u.uatUrl == t.uatUrl
            && u.currentUrl == (if n % 2 == 0 then t.devUrl else t.uatUrl)
            && ToggleButtonLabel(u) == (if n % 2 == 0 then "UAT" else "DEV")
    decreases n
  {
    if n > 0 {
      ToggleAlternates(t, n - 1);
    }
  }

  /** With distinct URLs, two presses from either known URL come back to it. */
  lemma ToggleTwiceReturns(t: EnvToggle)
    requires t.currentUrl == t.devUrl || t.currentUrl == t.uatUrl
    requires t.devUrl != t.uatUrl
    ensures Toggle(Toggle(t).state).state == t
  {
  }

  /** When both URLs are the same, the toggle can never leave DEV. */
  lemma SameUrlsStayOnDev(t: EnvToggle)
    requires t.devUrl == t.uatUrl
    ensures Toggle(t).url == t.devUrl
    ensures ToggleButtonLabel(Toggle(t).state) == "UAT"
  {
  }
}
