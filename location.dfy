/**
 * Where the user is, for legal purposes: the ten supported jurisdictions, the lookup by
 * country code, and the five-step detection that prefers what the user said over what the
 * network guesses.
 */
module Location {
  import opened Wrappers
  import opened Text

  datatype LegalSystem = CommonLaw | CivilLaw | ReligiousLaw | Mixed

  function LegalSystemName(system: LegalSystem): string {
    match system
    case CommonLaw => "common-law"
    case CivilLaw => "civil-law"
    case ReligiousLaw => "religious-law"
    case Mixed => "mixed"
  }

  datatype Jurisdiction = Jurisdiction(
    code: string,
    name: string,
    legalSystem: LegalSystem,
    primaryLanguage: string,
    currency: string,
    courtSystem: seq<string>,
    specialties: seq<string>)

  /** `LocationInfo`. */
  datatype LocationInfo = LocationInfo(
    country: string,
    countryCode: string,
    state: string,
    city: string,
    jurisdiction: string,
    legalSystem: string,
    currency: string,
    language: string,
    timezone: string)

  const UnitedStates := Jurisdiction("US", "United States", CommonLaw, "en", "USD",
    ["Federal Courts", "State Courts", "Local Courts"],
    ["Constitutional Law", "Corporate Law", "Criminal Law", "Civil Rights"])
  const UnitedKingdom := Jurisdiction("UK", "United Kingdom", CommonLaw, "en", "GBP",
    ["Supreme Court", "Court of Appeal", "High Court"],
    ["Contract Law", "Tort Law", "Property Law", "Family Law"])
  const Canada := Jurisdiction("CA", "Canada", CommonLaw, "en", "CAD",
    ["Supreme Court", "Federal Court", "Provincial Courts"],
    ["Charter Rights", "Indigenous Law", "Immigration Law"])
  const Australia := Jurisdiction("AU", "Australia", CommonLaw, "en", "AUD",
    ["High Court", "Federal Court", "State Courts"],
    ["Administrative Law", "Environmental Law", "Mining Law"])
  const India := Jurisdiction("IN", "India", Mixed, "hi", "INR",
    ["Supreme Court", "High Courts", "District Courts"],
    ["Personal Law", "Constitutional Law", "Commercial Law"])
  const Germany := Jurisdiction("DE", "Germany", CivilLaw, "de", "EUR",
    ["Federal Constitutional Court", "Federal Courts", "State Courts"],
    ["Civil Code", "Commercial Law", "Labor Law"])
  const France := Jurisdiction("FR", "France", CivilLaw, "fr", "EUR",
    ["Court of Cassation", "Courts of Appeal", "First Instance Courts"],
    ["Civil Code", "Administrative Law", "European Law"])
  const Brazil := Jurisdiction("BR", "Brazil", CivilLaw, "pt", "BRL",
    ["Supreme Federal Court", "Superior Courts", "State Courts"],
    ["Constitutional Law", "Labor Law", "Environmental Law"])
  const Nigeria := Jurisdiction("NG", "Nigeria", Mixed, "en", "NGN",
    ["Supreme Court", "Court of Appeal", "High Courts"],
    ["Customary Law", "Islamic Law", "Common Law"])
  const SouthAfrica := Jurisdiction("ZA", "South Africa", Mixed, "en", "ZAR",
    ["Constitutional Court", "Supreme Court of Appeal", "High Courts"],
    ["Constitutional Law", "Human Rights", "Mining Law"])

  /** `SUPPORTED_JURISDICTIONS`. */
  const SupportedJurisdictions := [UnitedStates, UnitedKingdom, Canada, Australia, India,
                                   Germany, France, Brazil, Nigeria, SouthAfrica]

  /** The placeholder left in the environment file when no geolocation key was set. */
  const PlaceholderKey := "your_ipgeolocation_api_key"

  predicate CodesDistinct(table: seq<Jurisdiction>) {
    forall i, j | 0 <= i < j < |table| :: table[i].code != table[j].code
  }

  predicate NamesDistinct(table: seq<Jurisdiction>) {
    forall i, j | 0 <= i < j < |table| :: table[i].name != table[j].name
  }

  const Codes := ["US", "UK", "CA", "AU", "IN", "DE", "FR", "BR", "NG", "ZA"]
  const Names := ["United States", "United Kingdom", "Canada", "Australia", "India", "Germany",
                  "France", "Brazil", "Nigeria", "South Africa"]

  /** The table's codes and names, entry by entry. */
  lemma SupportedKeys()
    ensures |SupportedJurisdictions| == 10
    ensures forall k | 0 <= k < 10 :: SupportedJurisdictions[k].code == Codes[k] && SupportedJurisdictions[k].name == Names[k]
  {
  }

  lemma KeysDistinct()
    ensures forall i, j | 0 <= i < j < 10 :: Codes[i] != Codes[j] && Names[i] != Names[j]
  {
    assert Codes[0][1] != Codes[1][1];
    assert Names[0][7] != Names[1][7];
  }

  /** The ten codes are pairwise different. */
  lemma SupportedCodesDistinct()
    ensures |SupportedJurisdictions| == 10 && CodesDistinct(SupportedJurisdictions)
  {
    SupportedKeys();
    KeysDistinct();
  }

  /** The ten names are pairwise different. */
  lemma SupportedNamesDistinct()
    ensures NamesDistinct(SupportedJurisdictions)
  {
    SupportedKeys();
    KeysDistinct();
  }

  /** No entry has an empty name or an empty language, so neither is ever falsy. */
  lemma SupportedFieldsNonEmpty()
    ensures forall k | 0 <= k < |SupportedJurisdictions| ::
              SupportedJurisdictions[k].name != "" && SupportedJurisdictions[k].primaryLanguage != ""
  {
  }

  /** Every entry lists at least three courts and three specialties. */
  lemma TableComplete()
    ensures forall k | 0 <= k < |SupportedJurisdictions| ::
              |SupportedJurisdictions[k].courtSystem| >= 3 && |SupportedJurisdictions[k].specialties| >= 3
  {
  }

  /** `SUPPORTED_JURISDICTIONS.find(j => j.code === code)`. */
  function FindByCode(table: seq<Jurisdiction>, code: string): (r: Option<Jurisdiction>)
    ensures r.None? <==> forall k | 0 <= k < |table| :: table[k].code != code
    ensures r.Some? ==> r.value in table && r.value.code == code
  {
    Find(table, (j: Jurisdiction) => j.code == code)
  }

  /** `SUPPORTED_JURISDICTIONS.find(j => j.name === name)`. */
  function FindByName(table: seq<Jurisdiction>, name: string): (r: Option<Jurisdiction>)
    ensures r.None? <==> forall k | 0 <= k < |table| :: table[k].name != name
    ensures r.Some? ==> r.value in table && r.value.name == name
  {
    Find(table, (j: Jurisdiction) => j.name == name)
  }

  lemma {:induction false} FindOwnCode(table: seq<Jurisdiction>, k: nat)
    requires CodesDistinct(table) && k < |table|
    ensures FindByCode(table, table[k].code) == Some(table[k])
  {
    if k > 0 {
      var t := table[1..];
      assert CodesDistinct(t) by {
        forall i, j | 0 <= i < j < |t| ensures t[i].code != t[j].code {
          assert t[i] == table[i + 1] && t[j] == table[j + 1];
        }
      }
      assert t[k - 1] == table[k];
      FindOwnCode(t, k - 1);
    }
  }

  lemma {:induction false} FindOwnName(table: seq<Jurisdiction>, k: nat)
    requires NamesDistinct(table) && k < |table|
    ensures FindByName(table, table[k].name) == Some(table[k])
  {
    if k > 0 {
      var t := table[1..];
      assert NamesDistinct(t) by {
        forall i, j | 0 <= i < j < |t| ensures t[i].name != t[j].name {
          assert t[i] == table[i + 1] && t[j] == table[j + 1];
        }
      }
      assert t[k - 1] == table[k];
      FindOwnName(t, k - 1);
    }
  }

  /** `getJurisdictionInfo`: the entry with that code, or `null`. */
  function GetJurisdictionInfo(code: string): (r: Option<Jurisdiction>)
    ensures r.None? <==> forall k | 0 <= k < |SupportedJurisdictions| :: SupportedJurisdictions[k].code != code
    ensures r.Some? ==> r.value in SupportedJurisdictions && r.value.code == code
  {
    FindByCode(SupportedJurisdictions, code)
  }

  /** Each supported entry is found again from its own code. */
  lemma InfoOfOwnCode(j: Jurisdiction)
    requires j in SupportedJurisdictions
    ensures GetJurisdictionInfo(j.code) == Some(j)
  {
    SupportedCodesDistinct();
    var k :| 0 <= k < |SupportedJurisdictions| && SupportedJurisdictions[k] == j;
    FindOwnCode(SupportedJurisdictions, k);
  }

  /** The location built from a chosen entry: state and city unknown, time zone UTC. */
  function FromJurisdiction(j: Jurisdiction): LocationInfo {
    LocationInfo(j.name, j.code, "Unknown", "Unknown", j.name, LegalSystemName(j.legalSystem),
                 j.currency, j.primaryLanguage, "UTC")
  }

  /** `getDefaultLocation`. */
  function DefaultLocation(): LocationInfo {
    LocationInfo("United States", "US", "Unknown", "Unknown", "United States", "common-law",
                 "USD", "en", "America/New_York")
  }

  /** The default location is the table's United States entry with the New York time zone. */
  lemma DefaultIsUnitedStates()
    ensures GetJurisdictionInfo(DefaultLocation().countryCode) == Some(UnitedStates)
    ensures DefaultLocation() == FromJurisdiction(UnitedStates).(timezone := "America/New_York")
  {
    InfoOfOwnCode(UnitedStates);
  }

  /** The answer of the IP geolocation service; an absent field is the empty string. */
  datatype IpData = IpData(
    countryName: string,
    countryCode2: string,
    stateProv: string,
    city: string,
    currencyCode: string,
    timeZoneName: string)

  function FromIpData(data: IpData): LocationInfo {
    var j := FindByCode(SupportedJurisdictions, data.countryCode2);
    LocationInfo(
      data.countryName, data.countryCode2, data.stateProv, data.city,
      if j.Some? then OrElse(j.value.name, data.countryName) else data.countryName,
      if j.Some? then OrElse(LegalSystemName(j.value.legalSystem), "common-law") else "common-law",
      OrElse(data.currencyCode, "USD"),
      if j.Some? then OrElse(j.value.primaryLanguage, "en") else "en",
      OrElse(data.timeZoneName, "UTC"))
  }

  /** An entry named by a truthy name. */
  function Named(name: string): Option<Jurisdiction> {
    if name != "" then FindByName(SupportedJurisdictions, name) else None
  }

  /**
   * `detectUserLocation`. The outside world comes in as parameters: the name the caller passed
   * (empty when none), the jurisdiction of the user saved in local storage (`None` when there is
   * no saved user, it does not parse or it has none), the geolocation key, the service's answer
   * (`None` when the request failed) and whether the browser reported a position.
   */
  function DetectUserLocation(userJurisdiction: string, savedJurisdiction: Option<string>,
                              apiKey: string, ipAnswer: Option<IpData>, browserPosition: bool): (r: LocationInfo)
  {
    var fromUser := Named(userJurisdiction);
    var fromSaved := if savedJurisdiction.Some? then Named(savedJurisdiction.value) else None;
    if fromUser.Some? then FromJurisdiction(fromUser.value)
    else if fromSaved.Some? then FromJurisdiction(fromSaved.value)
    else if apiKey != "" && apiKey != PlaceholderKey && ipAnswer.Some? then FromIpData(ipAnswer.value)
    else if browserPosition then
      LocationInfo("United States", "US", "Unknown", "Unknown", "United States", "common-law",
                   "USD", "en", "America/New_York")
    else DefaultLocation()
  }

  /** A supported name given by the caller wins over everything else. */
  lemma CallerFirst(j: Jurisdiction, savedJurisdiction: Option<string>, apiKey: string,
                    ipAnswer: Option<IpData>, browserPosition: bool)
    requires j in SupportedJurisdictions
    ensures var loc := DetectUserLocation(j.name, savedJurisdiction, apiKey, ipAnswer, browserPosition);
            loc == FromJurisdiction(j) && GetJurisdictionInfo(loc.countryCode) == Some(j)
  {
    SupportedNamesDistinct();
    SupportedFieldsNonEmpty();
    var k :| 0 <= k < |SupportedJurisdictions| && SupportedJurisdictions[k] == j;
    FindOwnName(SupportedJurisdictions, k);
    InfoOfOwnCode(j);
  }

  /** Without a usable caller name, a supported saved jurisdiction wins over the network. */
  lemma SavedSecond(userJurisdiction: string, j: Jurisdiction, apiKey: string,
                    ipAnswer: Option<IpData>, browserPosition: bool)
    requires Named(userJurisdiction).None?
    requires j in SupportedJurisdictions
    ensures DetectUserLocation(userJurisdiction, Some(j.name), apiKey, ipAnswer, browserPosition) == FromJurisdiction(j)
  {
    SupportedNamesDistinct();
    SupportedFieldsNonEmpty();
    var k :| 0 <= k < |SupportedJurisdictions| && SupportedJurisdictions[k] == j;
    FindOwnName(SupportedJurisdictions, k);
  }

  /** A key that is missing or still the placeholder means the service is never asked. */
  lemma UnconfiguredKeyIgnoresService(userJurisdiction: string, savedJurisdiction: Option<string>,
                                      ipAnswer: Option<IpData>, browserPosition: bool)
    ensures DetectUserLocation(userJurisdiction, savedJurisdiction, "", ipAnswer, browserPosition)
            == DetectUserLocation(userJurisdiction, savedJurisdiction, PlaceholderKey, None, browserPosition)
  {
  }

  /** The browser's position is never reverse-geocoded: having one changes nothing. */
  lemma PositionIgnored(userJurisdiction: string, savedJurisdiction: Option<string>,
                        apiKey: string, ipAnswer: Option<IpData>)
    ensures DetectUserLocation(userJurisdiction, savedJurisdiction, apiKey, ipAnswer, true)
            == DetectUserLocation(userJurisdiction, savedJurisdiction, apiKey, ipAnswer, false)
  {
  }

  /** Unless the service answered, the location is always one of the supported jurisdictions. */
  lemma OfflineSupported(userJurisdiction: string, savedJurisdiction: Option<string>,
                         apiKey: string, ipAnswer: Option<IpData>, browserPosition: bool)
    requires ipAnswer.None? || apiKey == "" || apiKey == PlaceholderKey
    ensures var loc := DetectUserLocation(userJurisdiction, savedJurisdiction, apiKey, ipAnswer, browserPosition);
            exists k | 0 <= k < |SupportedJurisdictions| ::
              loc.jurisdiction == SupportedJurisdictions[k].name && GetJurisdictionInfo(loc.countryCode) == Some(SupportedJurisdictions[k])
  {
    var loc := DetectUserLocation(userJurisdiction, savedJurisdiction, apiKey, ipAnswer, browserPosition);
    var j: Jurisdiction;
    var fromUser := Named(userJurisdiction);
    var fromSaved := if savedJurisdiction.Some? then Named(savedJurisdiction.value) else None;
    if fromUser.Some? {
      j := fromUser.value;
    } else if fromSaved.Some? {
      j := fromSaved.value;
    } else {
      j := UnitedStates;
    }
    InfoOfOwnCode(j);
    var k :| 0 <= k < |SupportedJurisdictions| && SupportedJurisdictions[k] == j;
    assert loc.jurisdiction == SupportedJurisdictions[k].name;
  }

  /** A service answer for a supported country takes that entry's system and language. */
  lemma ServiceKnownCountry(data: IpData, j: Jurisdiction)
    requires j in SupportedJurisdictions && data.countryCode2 == j.code
    ensures var loc := FromIpData(data);
            loc.jurisdiction == j.name && loc.legalSystem == LegalSystemName(j.legalSystem)
            && loc.language == j.primaryLanguage && loc.countryCode == j.code
  {
    InfoOfOwnCode(j);
    SupportedEntryFields(j);
  }

  /** A supported entry has a name and a primary language. */
  lemma SupportedEntryFields(j: Jurisdiction)
    requires j in SupportedJurisdictions
    ensures j.name != "" && j.primaryLanguage != ""
  {
    SupportedFieldsNonEmpty();
  }

  /** A service answer for any other country falls back to common law, English, and the service's own name. */
  lemma ServiceUnknownCountry(data: IpData)
    requires forall k | 0 <= k < |SupportedJurisdictions| :: SupportedJurisdictions[k].code != data.countryCode2
    ensures var loc := FromIpData(data);
            loc.jurisdiction == data.countryName && loc.legalSystem == "common-law" && loc.language == "en"
            && loc.currency == OrElse(data.currencyCode, "USD") && loc.timezone == OrElse(data.timeZoneName, "UTC")
  {
  }
}
