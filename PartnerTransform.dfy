/** The transform from the partner API's raw record to the directory's card
    record: a partner type and a pricing line derived from the service models,
    a location line from the countries, truncated feature and description
    texts with "how many more" counts, service names from the industries, and a
    display name without a leading number. */
module PartnerTransform {
  import opened Seqs
  import opened Text

  /** The fields of the raw API record that the transform reads. */
  datatype ApiPartner = ApiPartner(
    id: string,
    name: string,
    description: string,
    companyWebsite: string,
    countries: seq<string>,
    facebookPlatforms: seq<string>,
    focusAreas: seq<string>,
    industries: seq<string>,
    isBadged: bool,
    serviceModels: seq<string>,
    profilePictureUri: string)

  /** The directory's record; the random rating and review count are not part of it. */
  datatype DirectoryPartner = DirectoryPartner(
    id: string,
    name: string,
    partnerType: string,
    platforms: seq<string>,
    description: string,
    keyFeatures: seq<string>,
    moreFeatures: nat,
    pricing: string,
    location: string,
    services: seq<string>,
    moreServices: nat,
    website: string,
    profileImage: string,
    isBadged: bool)

  // ---- truncation ----

  /** `s` when it has at most `max` characters, else its first `max` characters and `...`. */
  function Truncate(s: string, max: nat): (r: string)
    ensures |r| <= max + 3
    ensures |s| <= max ==> r == s
    ensures |s| > max ==> |r| == max + 3 && r[..max] == s[..max] && r[max..] == "..."
  {
    if |s| > max then s[..max] + "..." else s
  }

  // ---- partner type and pricing ----

  /** `getPartnerType(serviceModels)`. */
  function GetPartnerType(serviceModels: seq<string>): (t: string)
    ensures t in ["Solution Partner", "Tech Provider", "Tech Partner"]
    ensures "SAAS" in serviceModels ==> t == "Solution Partner"
  {
    if "SAAS" in serviceModels then "Solution Partner"
    else if "MANAGED" in serviceModels || "PROJECT_BASED" in serviceModels then "Tech Provider"
    else "Tech Partner"
  }

  /** A SaaS model decides the type whatever else is listed; a managed or
      project-based model gives a tech provider; anything else a tech partner. */
  lemma PartnerTypeCases(serviceModels: seq<string>)
    ensures GetPartnerType(serviceModels) == "Solution Partner" <==> "SAAS" in serviceModels
    ensures GetPartnerType(serviceModels) == "Tech Provider"
        <==> "SAAS" !in serviceModels && ("MANAGED" in serviceModels || "PROJECT_BASED" in serviceModels)
    ensures GetPartnerType(serviceModels) == "Tech Partner"
        <==> "SAAS" !in serviceModels && "MANAGED" !in serviceModels && "PROJECT_BASED" !in serviceModels
  {
  }

  /** `getPricing(serviceModels)`. */
  function GetPricing(serviceModels: seq<string>): (p: string)
    ensures p in ["Starting at $29/month", "Custom pricing available", "Project-based pricing", "Contact for pricing"]
    ensures p == "Starting at $29/month" <==> GetPartnerType(serviceModels) == "Solution Partner"
  {
    if "SAAS" in serviceModels then "Starting at $29/month"
    else if "MANAGED" in serviceModels then "Custom pricing available"
    else if "PROJECT_BASED" in serviceModels then "Project-based pricing"
    else "Contact for pricing"
  }

  /** The pricing line follows the priority SAAS, then MANAGED, then
      PROJECT_BASED, with "Contact for pricing" when none is listed. */
  lemma PricingPriority(serviceModels: seq<string>)
    ensures GetPricing(serviceModels) == "Starting at $29/month" <==> "SAAS" in serviceModels
    ensures GetPricing(serviceModels) == "Custom pricing available"
        <==> "SAAS" !in serviceModels && "MANAGED" in serviceModels
    ensures GetPricing(serviceModels) == "Project-based pricing"
        <==> "SAAS" !in serviceModels && "MANAGED" !in serviceModels && "PROJECT_BASED" in serviceModels
    ensures GetPricing(serviceModels) == "Contact for pricing"
        <==> "SAAS" !in serviceModels && "MANAGED" !in serviceModels && "PROJECT_BASED" !in serviceModels
  {
  }

  /** The type and the pricing agree on which model they pick: a solution
      partner is priced as SaaS, and a tech partner asks to be contacted. */
  lemma TypeAndPricingAgree(serviceModels: seq<string>)
    ensures GetPartnerType(serviceModels) == "Solution Partner" <==> GetPricing(serviceModels) == "Starting at $29/month"
    ensures GetPartnerType(serviceModels) == "Tech Partner" <==> GetPricing(serviceModels) == "Contact for pricing"
  {
  }

  // ---- location ----

  /** `getLocation(countries)`. */
  function GetLocation(countries: seq<string>): (r: string)
    ensures r == "" <==> countries == [] || countries == [""]
  {
    JoinEmptyIff(countries, ", ");
    if |countries| > 10 then "Global"
    else if |countries| > 3 then
      Join(countries[..3], ", ") + ", and " + NatToString(|countries| - 3) + " more"
    else Join(countries, ", ")
  }

  /** Past ten countries the line is "Global"; up to ten, it names each of the
      first three and, past three, a count that reads back as the number left out. */
  lemma LocationNamesShownCountries(countries: seq<string>)
    ensures |countries| > 10 ==> GetLocation(countries) == "Global"
    ensures |countries| <= 10 ==>
      forall k :: 0 <= k < Min(|countries|, 3) ==> Contains(GetLocation(countries), countries[k])
    ensures 3 < |countries| <= 10 ==>
      exists n: nat | Contains(GetLocation(countries), NatToString(n)) :: ParseInt(NatToString(n)) == Integer(|countries| - 3)
  {
    if |countries| <= 10 {
      LocationNamesUpToTen(countries);
    }
  }

  /** The line for at most ten countries names the shown ones and the count of the rest. */
  lemma LocationNamesUpToTen(countries: seq<string>)
    requires |countries| <= 10
    ensures forall k :: 0 <= k < Min(|countries|, 3) ==> Contains(GetLocation(countries), countries[k])
    ensures |countries| > 3 ==> exists n: nat | Contains(GetLocation(countries), NatToString(n)) :: ParseInt(NatToString(n)) == Integer(|countries| - 3)
  {
    var loc := GetLocation(countries);
    if |countries| > 3 {
      var shown := countries[..3];
      var head := Join(shown, ", ");
      var count := NatToString(|countries| - 3);
      JoinContainsParts(shown, ", ");
      forall k | 0 <= k < 3 ensures Contains(loc, countries[k]) {
        assert shown[k] == countries[k];
        var i :| 0 <= i <= |head| - |shown[k]| && OccursAt(head, shown[k], i);
        assert loc[i..i + |shown[k]|] == head[i..i + |shown[k]|];
        assert OccursAt(loc, countries[k], i);
      }
      var off := |head| + 6;
      assert loc == head + ", and " + count + " more";
      assert loc[off..off + |count|] == count;
      assert OccursAt(loc, count, off);
      ParseIntNatToString(|countries| - 3);
    } else {
      JoinContainsParts(countries, ", ");
    }
  }

  // ---- features, services, platforms ----

  /** `getKeyFeatures(focusAreas)`. */
  function GetKeyFeatures(focusAreas: seq<string>): (r: seq<string>)
    ensures |r| == Min(|focusAreas|, 4)
    ensures forall i :: 0 <= i < |r| ==> r[i] == Truncate(focusAreas[i], 30) && |r[i]| <= 33
  {
    KeyFeaturesOf(Take(focusAreas, 4))
  }

  function KeyFeaturesOf(areas: seq<string>): (r: seq<string>)
    ensures |r| == |areas|
    ensures forall i :: 0 <= i < |r| ==> r[i] == Truncate(areas[i], 30)
  {
    if areas == [] then [] else [Truncate(areas[0], 30)] + KeyFeaturesOf(areas[1..])
  }

  /** `moreFeatures`: how many focus areas the key features leave out. */
  function MoreFeatures(focusAreas: seq<string>): (n: nat)
    ensures |GetKeyFeatures(focusAreas)| + n == |focusAreas|
  {
    Max(0, |focusAreas| - 4)
  }

  /** The industry table of `getServices`. */
  const ServiceMap: map<string, string> := map[
    "ECOMMERCE" := "E-commerce Integration",
    "RETAIL" := "Retail Solutions",
    "TECHNOLOGY" := "Tech Solutions",
    "HEALTHCARE" := "Healthcare Solutions",
    "FINANCIAL_SERVICES" := "Financial Services",
    "EDUCATION" := "Education Solutions",
    "TRAVEL" := "Travel Solutions",
    "AUTOMOTIVE" := "Automotive Solutions",
    "PROFESSIONAL_SERVICES" := "Professional Services",
    "TELECOM" := "Telecom Solutions"]

  /** The service name of one industry: its table entry, or the industry with
      underscores turned into spaces followed by ` Solutions`. */
  function ServiceName(industry: string): (r: string)
    ensures industry in ServiceMap ==> r == ServiceMap[industry]
    ensures industry !in ServiceMap ==>
      && |r| == |industry| + 10
      && r[..|industry|] == ReplaceChar(industry, '_', ' ')
      && r[|industry|..] == " Solutions"
      && '_' !in r
  {
    if industry in ServiceMap then ServiceMap[industry]
    else
      var r := ReplaceChar(industry, '_', ' ') + " Solutions";
      assert forall i :: 0 <= i < |r| ==> r[i] != '_' by {
        forall i | 0 <= i < |r| ensures r[i] != '_' {
          if i < |industry| { assert r[i] == ReplaceChar(industry, '_', ' ')[i]; }
        }
      }
      r
  }

  /** `getServices(industries)`. */
  function GetServices(industries: seq<string>): (r: seq<string>)
    ensures |r| == Min(|industries|, 3)
    ensures forall i :: 0 <= i < |r| ==> r[i] == ServiceName(industries[i])
  {
    ServicesOf(Take(industries, 3))
  }

  function ServicesOf(industries: seq<string>): (r: seq<string>)
    ensures |r| == |industries|
    ensures forall i :: 0 <= i < |r| ==> r[i] == ServiceName(industries[i])
  {
    if industries == [] then [] else [ServiceName(industries[0])] + ServicesOf(industries[1..])
  }

  /** `moreServices`: how many industries the services leave out. */
  function MoreServices(industries: seq<string>): (n: nat)
    ensures |GetServices(industries)| + n == |industries|
  {
    Max(0, |industries| - 3)
  }

  /** Every service name is non-empty, so the table fallback never yields an empty label. */
  lemma ServiceNamesNonEmpty(industries: seq<string>)
    ensures forall i :: 0 <= i < |GetServices(industries)| ==> GetServices(industries)[i] != ""
  {
    forall i | 0 <= i < |GetServices(industries)| ensures GetServices(industries)[i] != "" {
      var ind := industries[i];
      if ind !in ServiceMap {
        assert |ServiceName(ind)| >= 10;
      }
    }
  }

  /** The display label of one platform: only `WHATSAPP` is renamed. */
  function PlatformLabel(platform: string): (l: string)
    ensures l != "WHATSAPP"
    ensures platform != "WHATSAPP" ==> l == platform
  {
    if platform == "WHATSAPP" then "WhatsApp" else platform
  }

  /** The `platforms` field: `WHATSAPP` becomes `WhatsApp`, everything else is kept. */
  function DisplayPlatforms(platforms: seq<string>): (r: seq<string>)
    ensures |r| == |platforms|
    ensures forall i :: 0 <= i < |r| ==> r[i] == PlatformLabel(platforms[i])
  {
    if platforms == [] then [] else [PlatformLabel(platforms[0])] + DisplayPlatforms(platforms[1..])
  }

  /** Only `WHATSAPP` is rewritten, and rewriting again changes nothing. */
  lemma DisplayPlatformsSpec(platforms: seq<string>)
    ensures "WHATSAPP" !in DisplayPlatforms(platforms)
    ensures forall i :: 0 <= i < |platforms| && platforms[i] != "WHATSAPP" ==> DisplayPlatforms(platforms)[i] == platforms[i]
    ensures DisplayPlatforms(DisplayPlatforms(platforms)) == DisplayPlatforms(platforms)
  {
    var once := DisplayPlatforms(platforms);
    var twice := DisplayPlatforms(once);
    assert forall i :: 0 <= i < |once| ==> once[i] != "WHATSAPP";
    assert forall i :: 0 <= i < |twice| ==> twice[i] == once[i];
  }

  // ---- display name ----

  /** The number of leading ASCII digits of `s`. */
  function LeadingDigits(s: string): (n: nat)
    ensures n <= |s|
    ensures forall i :: 0 <= i < n ==> IsDigit(s[i])
    ensures n < |s| ==> !IsDigit(s[n])
  {
    if s == [] || !IsDigit(s[0]) then 0 else 1 + LeadingDigits(s[1..])
  }

  /** `name.replace` with the pattern `^\d+\s*` and an empty replacement: one
      leading run of digits is removed, with the white space that follows it.
      The shape of what is removed is `StripLeadingNumberShape`. */
  function StripLeadingNumber(s: string): (r: string)
    ensures |r| <= |s| && r == s[|s| - |r|..]
    ensures (s == [] || !IsDigit(s[0])) ==> r == s
    ensures s != [] && IsDigit(s[0]) ==> |r| < |s| && (r != [] ==> !IsWhitespace(r[0]))
  {
    var d := LeadingDigits(s);
    if d == 0 then s
    else
      var r := TrimStart(s[d..]);
      StrippedSuffix(s, d, r);
      r
  }

  /** What `StripLeadingNumber` removes from a name that starts with a digit
      has the shape of `^\d+\s*`: digits and then white space, and it is the
      longest such prefix, so what remains starts with neither. */
  lemma StripLeadingNumberShape(s: string)
    requires s != [] && IsDigit(s[0])
    ensures var r := StripLeadingNumber(s);
      && (forall i :: 0 <= i < |s| - |r| ==> IsDigit(s[i]) || IsWhitespace(s[i]))
      && (forall i, j :: 0 <= i < j < |s| - |r| && IsWhitespace(s[i]) ==> !IsDigit(s[j]))
      && (r != [] ==> !IsWhitespace(r[0]))
      && (r != [] && IsDigit(s[|s| - |r| - 1]) ==> !IsDigit(r[0]))
  {
    StrippedNumber(s, LeadingDigits(s), StripLeadingNumber(s));
  }

  /** Removing the leading digits and then the white space after them
      removes a non-empty prefix of the shape of `^\d+\s*`, and no longer one. */
  lemma StrippedNumber(s: string, d: nat, r: string)
    requires 0 < d == LeadingDigits(s)
    requires r == TrimStart(s[d..])
    ensures |r| < |s| && r == s[|s| - |r|..]
    ensures forall i :: 0 <= i < |s| - |r| ==> IsDigit(s[i]) || IsWhitespace(s[i])
    ensures forall i, j :: 0 <= i < j < |s| - |r| && IsWhitespace(s[i]) ==> !IsDigit(s[j])
    ensures r != [] ==> !IsWhitespace(r[0])
    ensures r != [] && IsDigit(s[|s| - |r| - 1]) ==> !IsDigit(r[0])
  {
    StrippedSuffix(s, d, r);
    StrippedWhitespace(s, d, r);
    StrippedShape(s, d, |s| - |r|);
    assert r != [] ==> r[0] == s[|s| - |r|];
  }

  /** Removing digits and then white space leaves a suffix. */
  lemma StrippedSuffix(s: string, d: nat, r: string)
    requires 0 < d <= |s|
    requires r == TrimStart(s[d..])
    ensures |r| < |s| && r == s[|s| - |r|..]
  {
    var t := s[d..];
    assert s[|s| - |r|..] == t[|t| - |r|..];
  }

  /** What follows the digits and is removed is white space. */
  lemma StrippedWhitespace(s: string, d: nat, r: string)
    requires 0 < d <= |s|
    requires r == TrimStart(s[d..])
    ensures forall i :: d <= i < |s| - |r| ==> IsWhitespace(s[i])
  {
    var t := s[d..];
    forall i | d <= i < |s| - |r| ensures IsWhitespace(s[i]) {
      assert s[i] == t[i - d];
    }
  }

  /** A prefix of digits followed by white space, cut just before a
      character that is not white space, has the shape of `^\d+\s*`. */
  lemma StrippedShape(s: string, d: nat, cut: nat)
    requires 0 < d <= cut <= |s|
    requires forall i :: 0 <= i < d ==> IsDigit(s[i])
    requires d < |s| ==> !IsDigit(s[d])
    requires forall i :: d <= i < cut ==> IsWhitespace(s[i])
    ensures forall i :: 0 <= i < cut ==> IsDigit(s[i]) || IsWhitespace(s[i])
    ensures forall i, j :: 0 <= i < j < cut && IsWhitespace(s[i]) ==> !IsDigit(s[j])
    ensures cut < |s| && IsDigit(s[cut - 1]) ==> !IsDigit(s[cut])
  {
    forall i, j | 0 <= i < j < cut && IsWhitespace(s[i]) ensures !IsDigit(s[j]) {
      assert i >= d;
    }
  }

  /** The `name` field: the leading number stripped, then trimmed. */
  function DisplayName(name: string): (r: string)
    ensures r != [] ==> !IsWhitespace(r[0]) && !IsWhitespace(r[|r| - 1])
    ensures |r| <= |name|
  {
    Trim(StripLeadingNumber(name))
  }

  /** A name without a leading digit is only trimmed. */
  lemma DisplayNameWithoutNumber(name: string)
    requires name == [] || !IsDigit(name[0])
    ensures DisplayName(name) == Trim(name)
  {
  }

  /** Only the first digit run goes: a second number after the space stays. */
  lemma StripsOneRun()
    ensures StripLeadingNumber("1 2X") == "2X"
  {
    assert LeadingDigits("1 2X") == 1 by {
      assert "1 2X"[1..] == " 2X";
    }
    assert "1 2X"[1..] == " 2X";
    assert TrimStart(" 2X") == "2X" by { assert " 2X"[1..] == "2X"; }
  }

  // ---- the transform ----

  /** `transformApiPartnerToPartner(apiPartner)`, without the random rating. */
  function Transform(api: ApiPartner): (p: DirectoryPartner)
    ensures p.id == api.id && p.website == api.companyWebsite
    ensures p.profileImage == api.profilePictureUri && p.isBadged == api.isBadged
    ensures |p.keyFeatures| <= 4 && |p.keyFeatures| + p.moreFeatures == |api.focusAreas|
    ensures |p.services| <= 3 && |p.services| + p.moreServices == |api.industries|
    ensures |p.description| <= 153
    ensures |api.description| <= 150 ==> p.description == api.description
    ensures |p.platforms| == |api.facebookPlatforms|
    ensures p.name == DisplayName(api.name)
    ensures p.partnerType == GetPartnerType(api.serviceModels)
    ensures p.pricing == GetPricing(api.serviceModels)
    ensures p.location == GetLocation(api.countries)
    ensures p.keyFeatures == GetKeyFeatures(api.focusAreas) && p.services == GetServices(api.industries)
    ensures p.platforms == DisplayPlatforms(api.facebookPlatforms) && p.description == Truncate(api.description, 150)
  {
    var keyFeatures := GetKeyFeatures(api.focusAreas);
    var services := GetServices(api.industries);
    var description := Truncate(api.description, 150);
    var name := DisplayName(api.name);
    assert |keyFeatures| + MoreFeatures(api.focusAreas) == |api.focusAreas|;
    assert |services| + MoreServices(api.industries) == |api.industries|;
    DirectoryPartner(
      api.id,
      name,
      GetPartnerType(api.serviceModels),
      DisplayPlatforms(api.facebookPlatforms),
      description,
      keyFeatures,
      MoreFeatures(api.focusAreas),
      GetPricing(api.serviceModels),
      GetLocation(api.countries),
      services,
      MoreServices(api.industries),
      api.companyWebsite,
      api.profilePictureUri,
      api.isBadged)
  }

  /** The transformed name neither starts nor ends with white space. */
  lemma TransformName(api: ApiPartner)
    ensures var n := Transform(api).name;
      n != [] ==> !IsWhitespace(n[0]) && !IsWhitespace(n[|n| - 1])
  {
    var n := Transform(api).name;
    assert n == DisplayName(api.name);
  }
}
