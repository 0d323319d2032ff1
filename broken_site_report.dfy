/** The broken-site report: a record of what the browser knew about a page the user reported, serialised into a
    flat map of string parameters. Which keys appear depends on the report mode and on which optional fields are
    present. */
module BrokenSiteReporting {
  import opened Wrappers

  datatype Mode = Regular | Toggle

  /** Where the report was started from; the raw value is what is sent. */
  datatype Source = AppMenu | Dashboard | OnProtectionsOffMenu | OnProtectionsOffDashboard
  {
    function RawValue(): string {
      match this
      case AppMenu => "menu"
      case Dashboard => "dashboard"
      case OnProtectionsOffMenu => "on_protections_off_menu"
      case OnProtectionsOffDashboard => "on_protections_off_dashboard_main"
    }
  }

  datatype SiteType = Desktop | Mobile
  {
    function RawValue(): string {
      match this
      case Desktop => "desktop"
      case Mobile => "mobile"
    }
  }

  /** The fields only the iOS build has. */
  datatype MobileDetails = MobileDetails(siteType: SiteType, atb: string, model: string)

  /** An error as the report describes it: its code, its domain and its localised description. */
  datatype ReportError = ReportError(code: int, domain: string, localizedDescription: string)

  datatype BrokenSiteReport = BrokenSiteReport(
    siteUrl: string,
    category: string,
    description: Option<string>,
    osVersion: string,
    manufacturer: string,
    upgradedHttps: bool,
    tdsETag: Option<string>,
    blockedTrackerDomains: seq<string>,
    installedSurrogates: seq<string>,
    isGPCEnabled: bool,
    ampURL: string,
    urlParametersRemoved: bool,
    reportFlow: Source,
    protectionsState: bool,
    lastSentDay: Option<string>,
    errors: Option<seq<ReportError>>,
    httpStatusCodes: Option<seq<int>>,
    didOpenReportInfo: bool,
    toggleReportCounter: Option<int>,
    mobile: Option<MobileDetails>)

  /** The initialiser (both platform variants: `mobile` is present exactly on iOS). Missing tracker and surrogate
      lists are stored as empty lists; `lastSentDay` starts unset. */
  function Init(
    siteUrl: string, category: string, description: Option<string>, osVersion: string, manufacturer: string,
    upgradedHttps: bool, tdsETag: Option<string>, blockedTrackerDomains: Option<seq<string>>,
    installedSurrogates: Option<seq<string>>, isGPCEnabled: bool, ampURL: string, urlParametersRemoved: bool,
    protectionsState: bool, reportFlow: Source, mobile: Option<MobileDetails>, errors: Option<seq<ReportError>>,
    httpStatusCodes: Option<seq<int>>, didOpenReportInfo: bool, toggleReportCounter: Option<int>): (r: BrokenSiteReport)
    ensures r.blockedTrackerDomains == (if blockedTrackerDomains.None? then [] else blockedTrackerDomains.value)
    ensures r.installedSurrogates == (if installedSurrogates.None? then [] else installedSurrogates.value)
    ensures r.lastSentDay.None?
    ensures r.siteUrl == siteUrl && r.category == category && r.description == description
    ensures r.tdsETag == tdsETag && r.errors == errors && r.httpStatusCodes == httpStatusCodes
    ensures r.toggleReportCounter == toggleReportCounter && r.mobile == mobile && r.reportFlow == reportFlow
    ensures r.osVersion == osVersion && r.manufacturer == manufacturer && r.ampURL == ampURL
    ensures r.upgradedHttps == upgradedHttps && r.isGPCEnabled == isGPCEnabled
    ensures r.urlParametersRemoved == urlParametersRemoved && r.protectionsState == protectionsState
    ensures r.didOpenReportInfo == didOpenReportInfo
  {
    BrokenSiteReport(siteUrl, category, description, osVersion, manufacturer, upgradedHttps, tdsETag,
      blockedTrackerDomains.GetOr([]), installedSurrogates.GetOr([]), isGPCEnabled, ampURL, urlParametersRemoved,
      reportFlow, protectionsState, None, errors, httpStatusCodes, didOpenReportInfo, toggleReportCounter, mobile)
  }

  // ---------------------------------------------------------------------------------------------------------
  // Text helpers

  function BoolDescription(b: bool): string {
    if b then "true" else "false"
  }

  function Digit(d: nat): (c: char)
    requires d < 10
    ensures IsDigit(c) && c as int - '0' as int == d
  {
    ('0' as int + d) as char
  }

  predicate IsDigit(c: char) {
    '0' <= c <= '9'
  }

  /** The decimal digits of `n`, most significant first, without leading zeros. */
  function NatToString(n: nat): (s: string)
    ensures |s| > 0 && forall i :: 0 <= i < |s| ==> IsDigit(s[i])
    decreases n
  {
    if n < 10 then [Digit(n)] else NatToString(n / 10) + [Digit(n % 10)]
  }

  /** `String(i)`: the decimal form, with a leading minus sign for a negative number. */
  function IntToString(i: int): string {
    if i < 0 then "-" + NatToString(-i) else NatToString(i)
  }

  /** The value of a string of decimal digits. */
  function DigitsValue(s: string): nat
    requires forall i :: 0 <= i < |s| ==> IsDigit(s[i])
  {
    if s == [] then 0
    else
      assert IsDigit(s[|s| - 1]);
      DigitsValue(s[..|s| - 1]) * 10 + (s[|s| - 1] as int - '0' as int)
  }

  /** Reads a decimal integer, optionally negative; anything else is not one. */
  function ParseInt(s: string): Option<int> {
    if |s| > 1 && s[0] == '-' && forall i :: 1 <= i < |s| ==> IsDigit(s[i]) then
      var v: int := DigitsValue(s[1..]); Some(-v)
    else if |s| > 0 && forall i :: 0 <= i < |s| ==> IsDigit(s[i]) then Some(DigitsValue(s))
    else None
  }

  /** `joined(separator:)` with a one-character separator. */
  function Join(parts: seq<string>, sep: char): string {
    if |parts| == 0 then ""
    else if |parts| == 1 then parts[0]
    else parts[0] + [sep] + Join(parts[1..], sep)
  }

  /** Splits at every occurrence of `sep`; the pieces are the text between separators. */
  function Split(s: string, sep: char): (r: seq<string>)
    ensures |r| > 0
  {
    if s == [] then [[]]
    else if s[0] == sep then [[]] + Split(s[1..], sep)
    else var rest := Split(s[1..], sep); [[s[0]] + rest[0]] + rest[1..]
  }

  /** `trimmingCharacters(in: "\"")`: removes every double quote at either end. */
  function TrimQuotes(s: string): string {
    var i := LeadingQuotes(s);
    var t := s[i..];
    t[..|t| - TrailingQuotes(t)]
  }

  predicate Quotes(s: string) {
    forall i :: 0 <= i < |s| ==> s[i] == '"'
  }

  /** The number of double quotes `s` starts with. */
  function LeadingQuotes(s: string): (k: nat)
    ensures k <= |s|
  {
    if s == [] || s[0] != '"' then 0 else LeadingQuotes(s[1..]) + 1
  }

  /** The number of double quotes `s` ends with. */
  function TrailingQuotes(s: string): (k: nat)
    ensures k <= |s|
  {
    if s == [] || s[|s| - 1] != '"' then 0 else TrailingQuotes(s[..|s| - 1]) + 1
  }

  /** `trimmingQueryItemsAndFragment()`: the URL up to its query or fragment. */
  function TrimQueryAndFragment(url: string): string {
    if url == [] || url[0] == '?' || url[0] == '#' then ""
    else [url[0]] + TrimQueryAndFragment(url[1..])
  }

  /** An error as "code - domain:description". */
  function ErrorDescription(e: ReportError): string {
    IntToString(e.code) + " - " + e.domain + ":" + e.localizedDescription
  }

  /** `httpStatusCodes.map { String($0) }`. */
  function CodeTexts(codes: seq<int>): seq<string> {
    if codes == [] then [] else [IntToString(codes[0])] + CodeTexts(codes[1..])
  }

  /** `errors.map { ... }`, one description per error. */
  function ErrorTexts(errors: seq<ReportError>): seq<string> {
    if errors == [] then [] else [ErrorDescription(errors[0])] + ErrorTexts(errors[1..])
  }

  // ---------------------------------------------------------------------------------------------------------
  // Parameters

  /** The parameter keys; `Name()` is the key as sent. */
  datatype Key = SiteUrl | UpgradedHttps | Tds | BlockedTrackers | Surrogates | Gpc | AmpUrl | UrlParametersRemoved
    | Os | Manufacturer | ReportFlow | Category | Description | ProtectionsState | DidOpenReportInfo
    | ToggleReportCounter | LastSentDay | HttpErrorCodes | ErrorDescriptions | SiteTypeKey | Atb | Model
  {
    function Name(): string {
      match this
      case SiteUrl => "siteUrl"
      case UpgradedHttps => "upgradedHttps"
      case Tds => "tds"
      case BlockedTrackers => "blockedTrackers"
      case Surrogates => "surrogates"
      case Gpc => "gpc"
      case AmpUrl => "ampUrl"
      case UrlParametersRemoved => "urlParametersRemoved"
      case Os => "os"
      case Manufacturer => "manufacturer"
      case ReportFlow => "reportFlow"
      case Category => "category"
      case Description => "description"
      case ProtectionsState => "protectionsState"
      case DidOpenReportInfo => "didOpenReportInfo"
      case ToggleReportCounter => "toggleReportCounter"
      case LastSentDay => "lastSentDay"
      case HttpErrorCodes => "httpErrorCodes"
      case ErrorDescriptions => "errorDescriptions"
      case SiteTypeKey => "siteType"
      case Atb => "atb"
      case Model => "model"
    }
  }

  lemma NamesDistinct(k1: Key, k2: Key)
    ensures k1.Name() == k2.Name() ==> k1 == k2
  {
  }

  lemma NamesInjective()
    ensures forall k1: Key, k2: Key :: k1.Name() == k2.Name() ==> k1 == k2
  {
    forall k1: Key, k2: Key ensures k1.Name() == k2.Name() ==> k1 == k2 {
      NamesDistinct(k1, k2);
    }
  }

  /** The parameters as sent: each key by its name. */
  function Wire(m: map<Key, string>): (w: map<string, string>)
    ensures w.Keys == set k | k in m :: k.Name()
    ensures forall k :: k in m ==> k.Name() in w && w[k.Name()] == m[k]
  {
    NamesInjective();
    map k | k in m :: k.Name() := m[k]
  }

  function AllKeys(): set<Key> {
    {SiteUrl, UpgradedHttps, Tds, BlockedTrackers, Surrogates, Gpc, AmpUrl, UrlParametersRemoved, Os, Manufacturer,
     ReportFlow, Category, Description, ProtectionsState, DidOpenReportInfo, ToggleReportCounter, LastSentDay,
     HttpErrorCodes, ErrorDescriptions, SiteTypeKey, Atb, Model}
  }

  /** Whether a report sends `k`: the base keys always; the mode decides between the regular keys and the toggle
      keys; each remaining key when (`if let`) its optional field is present, and the iOS keys on iOS. */
  predicate Sends(r: BrokenSiteReport, mode: Mode, k: Key) {
    match k
    case Category => mode == Regular
    case Description => mode == Regular
    case ProtectionsState => mode == Regular
    case DidOpenReportInfo => mode == Toggle
    case ToggleReportCounter => mode == Toggle && r.toggleReportCounter.Some?
    case LastSentDay => r.lastSentDay.Some?
    case HttpErrorCodes => r.httpStatusCodes.Some?
    case ErrorDescriptions => r.errors.Some?
    case SiteTypeKey => r.mobile.Some?
    case Atb => r.mobile.Some?
    case Model => r.mobile.Some?
    case _ => true
  }

  /** The text a report sends under `k`, when it sends `k`. */
  function Value(r: BrokenSiteReport, k: Key): string {
    match k
    case SiteUrl => TrimQueryAndFragment(r.siteUrl)
    case UpgradedHttps => BoolDescription(r.upgradedHttps)
    case Tds => if r.tdsETag.Some? then TrimQuotes(r.tdsETag.value) else ""
    case BlockedTrackers => Join(r.blockedTrackerDomains, ',')
    case Surrogates => Join(r.installedSurrogates, ',')
    case Gpc => BoolDescription(r.isGPCEnabled)
    case AmpUrl => r.ampURL
    case UrlParametersRemoved => BoolDescription(r.urlParametersRemoved)
    case Os => r.osVersion
    case Manufacturer => r.manufacturer
    case ReportFlow => r.reportFlow.RawValue()
    case Category => r.category
    case Description => r.description.GetOr("")
    case ProtectionsState => BoolDescription(r.protectionsState)
    case DidOpenReportInfo => BoolDescription(r.didOpenReportInfo)
    case ToggleReportCounter => if r.toggleReportCounter.Some? then IntToString(r.toggleReportCounter.value) else ""
    case LastSentDay => r.lastSentDay.GetOr("")
    case HttpErrorCodes => if r.httpStatusCodes.Some? then Join(CodeTexts(r.httpStatusCodes.value), ',') else ""
    case ErrorDescriptions => if r.errors.Some? then Join(ErrorTexts(r.errors.value), ',') else ""
    case SiteTypeKey => if r.mobile.Some? then r.mobile.value.siteType.RawValue() else ""
    case Atb => if r.mobile.Some? then r.mobile.value.atb else ""
    case Model => if r.mobile.Some? then r.mobile.value.model else ""
  }

  /** The parameters by key. */
  function Parameters(r: BrokenSiteReport, mode: Mode): map<Key, string> {
    map k | k in AllKeys() && Sends(r, mode, k) :: Value(r, k)
  }

  /** The map as `getRequestParameters(forReportMode:)` assembles it: the literal of the base keys, then the
      mode's keys, then each optional key, then the iOS keys, each inserted in turn. */
  function Assemble(r: BrokenSiteReport, mode: Mode): map<Key, string> {
    WithMobile(r, WithErrors(r, WithCodes(r, WithDay(r, WithMode(r, mode, BaseLiteral(r))))))
  }

  function BaseLiteral(r: BrokenSiteReport): map<Key, string> {
    map[
      SiteUrl := TrimQueryAndFragment(r.siteUrl),
      UpgradedHttps := BoolDescription(r.upgradedHttps),
      Tds := if r.tdsETag.Some? then TrimQuotes(r.tdsETag.value) else "",
      BlockedTrackers := Join(r.blockedTrackerDomains, ','),
      Surrogates := Join(r.installedSurrogates, ','),
      Gpc := BoolDescription(r.isGPCEnabled),
      AmpUrl := r.ampURL,
      UrlParametersRemoved := BoolDescription(r.urlParametersRemoved),
      Os := r.osVersion,
      Manufacturer := r.manufacturer,
      ReportFlow := r.reportFlow.RawValue()]
  }

  function WithMode(r: BrokenSiteReport, mode: Mode, m: map<Key, string>): map<Key, string> {
    if mode == Regular then
      m[Category := r.category][Description := r.description.GetOr("")]
       [ProtectionsState := BoolDescription(r.protectionsState)]
    else
      var toggled := m[DidOpenReportInfo := BoolDescription(r.didOpenReportInfo)];
      if r.toggleReportCounter.Some? then toggled[ToggleReportCounter := IntToString(r.toggleReportCounter.value)]
      else toggled
  }

  function WithDay(r: BrokenSiteReport, m: map<Key, string>): map<Key, string> {
    if r.lastSentDay.Some? then m[LastSentDay := r.lastSentDay.value] else m
  }

  function WithCodes(r: BrokenSiteReport, m: map<Key, string>): map<Key, string> {
    if r.httpStatusCodes.Some? then m[HttpErrorCodes := Join(CodeTexts(r.httpStatusCodes.value), ',')] else m
  }

  function WithErrors(r: BrokenSiteReport, m: map<Key, string>): map<Key, string> {
    if r.errors.Some? then m[ErrorDescriptions := Join(ErrorTexts(r.errors.value), ',')] else m
  }

  function WithMobile(r: BrokenSiteReport, m: map<Key, string>): map<Key, string> {
    if r.mobile.Some? then
      m[SiteTypeKey := r.mobile.value.siteType.RawValue()][Atb := r.mobile.value.atb][Model := r.mobile.value.model]
    else m
  }

  /** `getRequestParameters(forReportMode:)`. */
  function GetRequestParameters(r: BrokenSiteReport, mode: Mode): map<string, string> {
    Wire(Assemble(r, mode))
  }

  /** `requestParameters`: the parameters of a regular report. */
  function RequestParameters(r: BrokenSiteReport): map<string, string> {
    GetRequestParameters(r, Regular)
  }

  // ---------------------------------------------------------------------------------------------------------
  // Properties

  /** The keys every report has, in either mode. */
  predicate Base(k: Key) {
    || k.SiteUrl? || k.UpgradedHttps? || k.Tds? || k.BlockedTrackers? || k.Surrogates? || k.Gpc? || k.AmpUrl?
    || k.UrlParametersRemoved? || k.Os? || k.Manufacturer? || k.ReportFlow?
  }

  /** The keys only iOS reports have. */
  predicate Mobile(k: Key) {
    k.SiteTypeKey? || k.Atb? || k.Model?
  }

  /** The keys a report is expected to have: the base keys, the mode's own keys, and one key per optional field
      present. */
  predicate Expected(r: BrokenSiteReport, mode: Mode, k: Key) {
    || Base(k)
    || (mode == Regular && (k.Category? || k.Description? || k.ProtectionsState?))
    || (mode == Toggle && k.DidOpenReportInfo?)
    || (mode == Toggle && k.ToggleReportCounter? && r.toggleReportCounter.Some?)
    || (k.LastSentDay? && r.lastSentDay.Some?)
    || (k.HttpErrorCodes? && r.httpStatusCodes.Some?)
    || (k.ErrorDescriptions? && r.errors.Some?)
    || (Mobile(k) && r.mobile.Some?)
  }

  /** A key is present exactly when the report sends it, with the value it sends. */
  lemma Lookup(r: BrokenSiteReport, mode: Mode, k: Key)
    ensures k in Parameters(r, mode) <==> Sends(r, mode, k)
    ensures k in Parameters(r, mode) ==> Parameters(r, mode)[k] == Value(r, k)
  {
    assert k in AllKeys();
  }

  /** The two directions of `Lookup` for a key the report does or does not send. */
  lemma Present(r: BrokenSiteReport, mode: Mode, k: Key)
    requires Sends(r, mode, k)
    ensures k in Parameters(r, mode) && Parameters(r, mode)[k] == Value(r, k)
  {
    assert k in AllKeys();
  }

  lemma Absent(r: BrokenSiteReport, mode: Mode, k: Key)
    requires !Sends(r, mode, k)
    ensures k !in Parameters(r, mode)
  {
  }

  lemma KeyPresence(r: BrokenSiteReport, mode: Mode, k: Key)
    ensures k in Parameters(r, mode) <==> Expected(r, mode, k)
  {
    Lookup(r, mode, k);
  }

  /** Exactly the expected keys are present; in particular every base key is. */
  lemma ParameterKeys(r: BrokenSiteReport, mode: Mode)
    ensures forall k :: k in Parameters(r, mode) <==> Expected(r, mode, k)
    ensures forall k :: Base(k) ==> k in Parameters(r, mode)
  {
    forall k ensures k in Parameters(r, mode) <==> Expected(r, mode, k) {
      KeyPresence(r, mode, k);
    }
  }

  /** A regular report carries the category, the description (empty when there is none) and the protections
      state, and no toggle keys. */
  lemma RegularParameters(r: BrokenSiteReport)
    ensures var m := Parameters(r, Regular);
      && Category in m && m[Category] == r.category
      && Description in m && m[Description] == (if r.description.Some? then r.description.value else "")
      && ProtectionsState in m && m[ProtectionsState] == BoolDescription(r.protectionsState)
      && DidOpenReportInfo !in m && ToggleReportCounter !in m
  {
    Present(r, Regular, Category);
    Present(r, Regular, Description);
    Present(r, Regular, ProtectionsState);
    Absent(r, Regular, DidOpenReportInfo);
    Absent(r, Regular, ToggleReportCounter);
  }

  /** A toggle report carries whether the report info was opened and the counter when there is one, and never
      the category, the description or the protections state. */
  lemma ToggleParameters(r: BrokenSiteReport)
    ensures var m := Parameters(r, Toggle);
      && DidOpenReportInfo in m && m[DidOpenReportInfo] == BoolDescription(r.didOpenReportInfo)
      && (ToggleReportCounter in m <==> r.toggleReportCounter.Some?)
      && (r.toggleReportCounter.Some? ==> m[ToggleReportCounter] == IntToString(r.toggleReportCounter.value))
      && Category !in m && Description !in m && ProtectionsState !in m
  {
    Absent(r, Toggle, Category);
    Absent(r, Toggle, Description);
    Absent(r, Toggle, ProtectionsState);
    Present(r, Toggle, DidOpenReportInfo);
    Lookup(r, Toggle, ToggleReportCounter);
  }

  /** The base keys are sent in either mode: the URL up to its query, the unquoted ETag, and the comma-joined
      tracker and surrogate lists... */
  lemma BaseValues(r: BrokenSiteReport, mode: Mode)
    ensures var m := Parameters(r, mode);
      && SiteUrl in m && Tds in m && BlockedTrackers in m && Surrogates in m
      && m[SiteUrl] == TrimQueryAndFragment(r.siteUrl)
      && m[Tds] == (if r.tdsETag.Some? then TrimQuotes(r.tdsETag.value) else "")
      && m[BlockedTrackers] == Join(r.blockedTrackerDomains, ',')
      && m[Surrogates] == Join(r.installedSurrogates, ',')
  {
    Present(r, mode, SiteUrl);
    Present(r, mode, Tds);
    Present(r, mode, BlockedTrackers);
    Present(r, mode, Surrogates);
  }

  /** ...the AMP URL, the OS version, the manufacturer and the report flow as given... */
  lemma BaseFields(r: BrokenSiteReport, mode: Mode)
    ensures var m := Parameters(r, mode);
      && AmpUrl in m && Os in m && Manufacturer in m && ReportFlow in m
      && m[ReportFlow] == r.reportFlow.RawValue()
      && m[AmpUrl] == r.ampURL && m[Os] == r.osVersion && m[Manufacturer] == r.manufacturer
  {
    Present(r, mode, AmpUrl);
    Present(r, mode, Os);
    Present(r, mode, Manufacturer);
    Present(r, mode, ReportFlow);
  }

  /** ...and the three flags as `true` or `false`. */
  lemma BaseFlags(r: BrokenSiteReport, mode: Mode)
    ensures var m := Parameters(r, mode);
      && UpgradedHttps in m && Gpc in m && UrlParametersRemoved in m
      && m[UpgradedHttps] == BoolDescription(r.upgradedHttps) && m[Gpc] == BoolDescription(r.isGPCEnabled)
      && m[UrlParametersRemoved] == BoolDescription(r.urlParametersRemoved)
  {
    Present(r, mode, UpgradedHttps);
    Present(r, mode, Gpc);
    Present(r, mode, UrlParametersRemoved);
  }

  /** The keys filled from optional fields are present exactly when their field is, with its value. */
  lemma OptionalValues(r: BrokenSiteReport, mode: Mode)
    ensures var m := Parameters(r, mode);
      && (LastSentDay in m <==> r.lastSentDay.Some?)
      && (r.lastSentDay.Some? ==> m[LastSentDay] == r.lastSentDay.value)
      && (ErrorDescriptions in m <==> r.errors.Some?)
      && (r.errors.Some? ==> m[ErrorDescriptions] == Join(ErrorTexts(r.errors.value), ','))
  {
    Lookup(r, mode, LastSentDay);
    Lookup(r, mode, ErrorDescriptions);
  }

  /** The iOS keys are present exactly on iOS, with the site type, the ATB and the device model. */
  lemma MobileValues(r: BrokenSiteReport, mode: Mode)
    ensures var m := Parameters(r, mode);
      && (SiteTypeKey in m <==> r.mobile.Some?) && (Atb in m <==> r.mobile.Some?) && (Model in m <==> r.mobile.Some?)
      && (r.mobile.Some? ==> m[SiteTypeKey] == r.mobile.value.siteType.RawValue())
      && (r.mobile.Some? ==> m[Atb] == r.mobile.value.atb && m[Model] == r.mobile.value.model)
  {
    Lookup(r, mode, SiteTypeKey);
    Lookup(r, mode, Atb);
    Lookup(r, mode, Model);
  }

  lemma {:induction false} DigitsOfNat(n: nat)
    ensures DigitsValue(NatToString(n)) == n
    decreases n
  {
    var s := NatToString(n);
    if n >= 10 {
      DigitsOfNat(n / 10);
      assert s[..|s| - 1] == NatToString(n / 10);
    }
  }

  /** Reading back the decimal form of an integer gives the integer. */
  lemma ParseIntToString(i: int)
    ensures ParseInt(IntToString(i)) == Some(i)
  {
    var s := IntToString(i);
    if i < 0 {
      assert s[1..] == NatToString(-i);
      DigitsOfNat(-i);
    } else {
      DigitsOfNat(i);
    }
  }

  lemma {:induction false} SplitWithoutSeparator(p: string, sep: char)
    requires sep !in p
    ensures Split(p, sep) == [p]
  {
    if p != [] {
      assert p[0] != sep;
      SplitWithoutSeparator(p[1..], sep);
      assert [p[0]] + p[1..] == p;
    }
  }

  lemma {:induction false} SplitAtSeparator(p: string, rest: string, sep: char)
    requires sep !in p
    ensures Split(p + [sep] + rest, sep) == [p] + Split(rest, sep)
  {
    var s := p + [sep] + rest;
    if p == [] {
      assert s[0] == sep && s[1..] == rest;
    } else {
      assert s[0] == p[0] && s[1..] == p[1..] + [sep] + rest;
      SplitAtSeparator(p[1..], rest, sep);
      assert [p[0]] + p[1..] == p;
    }
  }

  /** Splitting a join at its separator gives the parts back, when no part holds the separator. */
  lemma {:induction false} SplitJoin(parts: seq<string>, sep: char)
    requires |parts| > 0 && forall i :: 0 <= i < |parts| ==> sep !in parts[i]
    ensures Split(Join(parts, sep), sep) == parts
  {
    if |parts| == 1 {
      SplitWithoutSeparator(parts[0], sep);
    } else {
      SplitAtSeparator(parts[0], Join(parts[1..], sep), sep);
      SplitJoin(parts[1..], sep);
    }
  }

  /** Reads every piece as an integer, or fails. */
  function ParseAll(parts: seq<string>): Option<seq<int>> {
    if parts == [] then Some([])
    else match (ParseInt(parts[0]), ParseAll(parts[1..]))
      case (Some(x), Some(xs)) => Some([x] + xs)
      case _ => None
  }

  /** Reads a comma-separated list of integers; the empty text is the empty list. */
  function DecodeCodes(s: string): Option<seq<int>> {
    if s == "" then Some([]) else ParseAll(Split(s, ','))
  }

  lemma {:induction false} ParseAllToString(codes: seq<int>)
    ensures ParseAll(CodeTexts(codes)) == Some(codes)
  {
    var ms := CodeTexts(codes);
    if codes != [] {
      ParseIntToString(codes[0]);
      assert ms[1..] == CodeTexts(codes[1..]);
      ParseAllToString(codes[1..]);
      assert ParseAll(ms) == Some([codes[0]] + codes[1..]);
      assert [codes[0]] + codes[1..] == codes;
    }
  }

  lemma {:induction false} CodeTextsSpec(codes: seq<int>)
    ensures |CodeTexts(codes)| == |codes|
    ensures forall i :: 0 <= i < |codes| ==> CodeTexts(codes)[i] == IntToString(codes[i])
  {
    if codes != [] {
      CodeTextsSpec(codes[1..]);
    }
  }

  lemma NoCommaInNumber(i: int)
    ensures ',' !in IntToString(i) && |IntToString(i)| > 0
  {
    var s := IntToString(i);
    if i < 0 {
      assert forall k :: 1 <= k < |s| ==> s[k] == NatToString(-i)[k - 1];
    }
    assert forall k :: 0 <= k < |s| ==> s[k] == '-' || IsDigit(s[k]);
  }

  /** `httpErrorCodes` is present exactly when there are status codes, and it is their decimal forms joined by
      commas, in order: reading it back gives the codes. */
  lemma HttpErrorCodesRoundTrip(r: BrokenSiteReport, mode: Mode)
    ensures var m := Parameters(r, mode);
      && (HttpErrorCodes in m <==> r.httpStatusCodes.Some?)
      && (r.httpStatusCodes.Some? ==> DecodeCodes(m[HttpErrorCodes]) == Some(r.httpStatusCodes.value))
  {
    KeyPresence(r, mode, HttpErrorCodes);
    if r.httpStatusCodes.Some? {
      var codes := r.httpStatusCodes.value;
      var parts := CodeTexts(codes);
      assert Parameters(r, mode)[HttpErrorCodes] == Join(parts, ',');
      ParseAllToString(codes);
      CodeTextsSpec(codes);
      if codes != [] {
        forall i | 0 <= i < |parts| ensures ',' !in parts[i] {
          NoCommaInNumber(codes[i]);
        }
        SplitJoin(parts, ',');
        NoCommaInNumber(codes[0]);
        assert |Join(parts, ',')| >= |parts[0]| by {
          if |parts| > 1 {
            assert Join(parts, ',') == parts[0] + [','] + Join(parts[1..], ',');
          }
        }
      }
    }
  }

  /** A tracker list with no comma inside a domain can be read back from its parameter. */
  lemma BlockedTrackersRoundTrip(r: BrokenSiteReport, mode: Mode)
    requires |r.blockedTrackerDomains| > 0
    requires forall i :: 0 <= i < |r.blockedTrackerDomains| ==> ',' !in r.blockedTrackerDomains[i]
    ensures BlockedTrackers in Parameters(r, mode)
    ensures Split(Parameters(r, mode)[BlockedTrackers], ',') == r.blockedTrackerDomains
  {
    BaseValues(r, mode);
    SplitJoin(r.blockedTrackerDomains, ',');
  }

  /** The parameters as sent hold one entry per key, under the key's name, with the key's value. */
  lemma WireParameters(r: BrokenSiteReport, mode: Mode, k: Key)
    ensures var w := Wire(Parameters(r, mode));
      && (Expected(r, mode, k) ==> k.Name() in w && w[k.Name()] == Value(r, k))
      && (!Expected(r, mode, k) ==> k.Name() !in w)
  {
    KeyPresence(r, mode, k);
    NamesInjective();
  }

  /** What one insertion step leaves as it was: every key it does not insert. */
  predicate Keeps(before: map<Key, string>, after: map<Key, string>, k: Key) {
    (k in after <==> k in before) && (k in before ==> after[k] == before[k])
  }

  /** What one insertion step holds afterwards under a key it may insert. */
  predicate Holds(r: BrokenSiteReport, mode: Mode, m: map<Key, string>, k: Key) {
    (k in m <==> Sends(r, mode, k)) && (k in m ==> m[k] == Value(r, k))
  }

  lemma BaseLiteralAt(r: BrokenSiteReport, mode: Mode, k: Key)
    ensures Base(k) ==> Holds(r, mode, BaseLiteral(r), k)
    ensures !Base(k) ==> k !in BaseLiteral(r)
  {
  }

  lemma WithModeAt(r: BrokenSiteReport, mode: Mode, m: map<Key, string>, k: Key)
    ensures var after := WithMode(r, mode, m);
      if k.Category? || k.Description? || k.ProtectionsState? || k.DidOpenReportInfo? || k.ToggleReportCounter?
      then k !in m ==> Holds(r, mode, after, k)
      else Keeps(m, after, k)
  {
  }

  lemma WithOptionalAt(r: BrokenSiteReport, mode: Mode, m: map<Key, string>, k: Key)
    ensures k.LastSentDay? ==> (k !in m ==> Holds(r, mode, WithDay(r, m), k))
    ensures !k.LastSentDay? ==> Keeps(m, WithDay(r, m), k)
    ensures k.HttpErrorCodes? ==> (k !in m ==> Holds(r, mode, WithCodes(r, m), k))
    ensures !k.HttpErrorCodes? ==> Keeps(m, WithCodes(r, m), k)
    ensures k.ErrorDescriptions? ==> (k !in m ==> Holds(r, mode, WithErrors(r, m), k))
    ensures !k.ErrorDescriptions? ==> Keeps(m, WithErrors(r, m), k)
  {
  }

  lemma WithMobileAt(r: BrokenSiteReport, mode: Mode, m: map<Key, string>, k: Key)
    ensures Mobile(k) ==> (k !in m ==> Holds(r, mode, WithMobile(r, m), k))
    ensures !Mobile(k) ==> Keeps(m, WithMobile(r, m), k)
  {
  }

  /** The steps of `Assemble` after the mode's keys: what each leaves in place is carried to the end. */
  lemma CarryFromMode(r: BrokenSiteReport, mode: Mode, m1: map<Key, string>, k: Key)
    requires !k.LastSentDay? && !k.HttpErrorCodes? && !k.ErrorDescriptions? && !Mobile(k)
    ensures Keeps(m1, WithMobile(r, WithErrors(r, WithCodes(r, WithDay(r, m1)))), k)
  {
    var m2 := WithDay(r, m1);
    var m3 := WithCodes(r, m2);
    var m4 := WithErrors(r, m3);
    WithOptionalAt(r, mode, m1, k);
    WithOptionalAt(r, mode, m2, k);
    WithOptionalAt(r, mode, m3, k);
    WithMobileAt(r, mode, m4, k);
  }

  /** The keys of the base literal survive every later step... */
  lemma AssembleBaseAt(r: BrokenSiteReport, mode: Mode, k: Key)
    requires Base(k)
    ensures Holds(r, mode, Assemble(r, mode), k)
  {
    var m0 := BaseLiteral(r);
    var m1 := WithMode(r, mode, m0);
    BaseLiteralAt(r, mode, k);
    WithModeAt(r, mode, m0, k);
    assert Holds(r, mode, m1, k);
    CarryFromMode(r, mode, m1, k);
  }

  /** ...and so do the mode's keys. */
  lemma AssembleModeAt(r: BrokenSiteReport, mode: Mode, k: Key)
    requires Stage(k) == 1
    ensures Holds(r, mode, Assemble(r, mode), k)
  {
    var m0 := BaseLiteral(r);
    var m1 := WithMode(r, mode, m0);
    BaseLiteralAt(r, mode, k);
    WithModeAt(r, mode, m0, k);
    assert Holds(r, mode, m1, k);
    CarryFromMode(r, mode, m1, k);
  }

  /** The optional keys and the iOS keys: not in the map before their own step, and not overwritten after it. */
  lemma AssembleLateAt(r: BrokenSiteReport, mode: Mode, k: Key)
    requires Stage(k) >= 2
    ensures Holds(r, mode, Assemble(r, mode), k)
  {
    var m0 := BaseLiteral(r);
    var m1 := WithMode(r, mode, m0);
    var m2 := WithDay(r, m1);
    var m3 := WithCodes(r, m2);
    var m4 := WithErrors(r, m3);
    BaseLiteralAt(r, mode, k);
    WithModeAt(r, mode, m0, k);
    assert k !in m1;
    WithOptionalAt(r, mode, m1, k);
    WithOptionalAt(r, mode, m2, k);
    WithOptionalAt(r, mode, m3, k);
    WithMobileAt(r, mode, m4, k);
  }

  /** The order in which the source inserts the keys: base literal, mode, lastSentDay, httpErrorCodes,
      errorDescriptions, iOS keys. */
  function Stage(k: Key): nat {
    if Base(k) then 0
    else if k.Category? || k.Description? || k.ProtectionsState? || k.DidOpenReportInfo? || k.ToggleReportCounter? then 1
    else if k.LastSentDay? then 2
    else if k.HttpErrorCodes? then 3
    else if k.ErrorDescriptions? then 4
    else 5
  }

  lemma AssembleAt(r: BrokenSiteReport, mode: Mode, k: Key)
    ensures Holds(r, mode, Assemble(r, mode), k)
  {
    if Stage(k) == 0 {
      AssembleBaseAt(r, mode, k);
    } else if Stage(k) == 1 {
      AssembleModeAt(r, mode, k);
    } else {
      AssembleLateAt(r, mode, k);
    }
  }

  /** Inserting the keys one after another, in the order the source does, gives the per-key table: no insertion
      overwrites another, and each key ends up present exactly when the table sends it, with the table's value. */
  lemma AssembleMatchesTable(r: BrokenSiteReport, mode: Mode)
    ensures Assemble(r, mode) == Parameters(r, mode)
  {
    var a := Assemble(r, mode);
    var p := Parameters(r, mode);
    forall k ensures (k in a <==> k in p) && (k in a ==> a[k] == p[k]) {
      AssembleAt(r, mode, k);
      Lookup(r, mode, k);
    }
    assert a.Keys == p.Keys;
  }

  /** So the map sent holds, under each key's name, exactly what the per-key table says. */
  lemma GetRequestParametersMatchesTable(r: BrokenSiteReport, mode: Mode)
    ensures GetRequestParameters(r, mode) == Wire(Parameters(r, mode))
  {
    AssembleMatchesTable(r, mode);
  }

  /** Trimming the quotes a second time changes nothing. */
  lemma TrimQuotesIdempotent(s: string)
    ensures TrimQuotes(TrimQuotes(s)) == TrimQuotes(s)
  {
    var t := TrimQuotes(s);
    TrimQuotesSpec(s);
    assert LeadingQuotes(t) == 0;
    assert TrailingQuotes(t) == 0;
    assert t[0..] == t;
    assert t[..|t|] == t;
  }

  lemma {:induction false} LeadingQuotesSpec(s: string)
    ensures var k := LeadingQuotes(s); Quotes(s[..k]) && (k == |s| || s[k] != '"')
  {
    if s != [] && s[0] == '"' {
      LeadingQuotesSpec(s[1..]);
      var k := LeadingQuotes(s[1..]);
      assert s[..k + 1] == [s[0]] + s[1..][..k];
    }
  }

  lemma {:induction false} TrailingQuotesSpec(s: string)
    ensures var k := TrailingQuotes(s); Quotes(s[|s| - k..]) && (k == |s| || s[|s| - k - 1] != '"')
  {
    if s != [] && s[|s| - 1] == '"' {
      TrailingQuotesSpec(s[..|s| - 1]);
      var k := TrailingQuotes(s[..|s| - 1]);
      assert s[|s| - (k + 1)..] == s[..|s| - 1][|s| - 1 - k..] + [s[|s| - 1]];
    }
  }

  /** The trimmed text is what lies between a run of quotes at the start and a run at the end, and it neither
      starts nor ends with a quote. */
  lemma TrimQuotesSpec(s: string)
    ensures var r := TrimQuotes(s);
      && (exists i, j :: 0 <= i <= j <= |s| && r == s[i..j] && Quotes(s[..i]) && Quotes(s[j..]))
      && (r == [] || (r[0] != '"' && r[|r| - 1] != '"'))
  {
    var i := LeadingQuotes(s);
    var t := s[i..];
    var k := TrailingQuotes(t);
    var j := i + |t| - k;
    var r := TrimQuotes(s);
    LeadingQuotesSpec(s);
    TrailingQuotesSpec(t);
    assert r == s[i..j] by {
      assert r == t[..|t| - k];
    }
    assert Quotes(s[j..]) by {
      assert s[j..] == t[|t| - k..];
    }
    if r != [] {
      assert r[0] == s[i];
      assert r[|r| - 1] == t[|t| - k - 1];
    }
  }

  /** The trimmed URL is the longest prefix without a query or a fragment. */
  lemma {:induction false} TrimQueryAndFragmentSpec(url: string)
    ensures var r := TrimQueryAndFragment(url);
      && r <= url && '?' !in r && '#' !in r
      && (|r| < |url| ==> url[|r|] == '?' || url[|r|] == '#')
  {
    if url != [] && url[0] != '?' && url[0] != '#' {
      TrimQueryAndFragmentSpec(url[1..]);
    }
  }
}
