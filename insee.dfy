/** The company-register checks: a SIRET is cleaned of white space, must be
    14 digits, and is looked up in the INSEE directory, whose answer is mapped
    to the company's details or to an HTTP error; a KBIS is accepted when it
    contains the SIREN of the given SIRET or, failing that, when it is at
    least nine characters long. The directory call itself is a parameter: its
    answer or its failure. */
module Insee {
  import opened Common
  import opened Strings

  /** The legal unit of an establishment, as the directory returns it. */
  datatype UniteLegale = UniteLegale(
    siren: string,
    denominationUniteLegale: Option<string>,
    prenom1UniteLegale: Option<string>,
    nomUniteLegale: Option<string>,
    activitePrincipaleUniteLegale: Option<string>,
    categorieJuridiqueUniteLegale: Option<string>,
    dateCreationUniteLegale: Option<string>)

  datatype Adresse = Adresse(
    numeroVoieEtablissement: Option<string>,
    typeVoieEtablissement: Option<string>,
    libelleVoieEtablissement: Option<string>,
    codePostalEtablissement: Option<string>,
    libelleCommuneEtablissement: Option<string>)

  /** An establishment; the legal unit may be missing from a malformed
      answer. */
  datatype Etablissement = Etablissement(uniteLegale: Option<UniteLegale>, adresseEtablissement: Option<Adresse>)

  /** The error response of a failed call: its status and its body's
      `message`, each possibly absent. */
  datatype ErrorResponse = ErrorResponse(status: Option<int>, message: Option<string>)

  /** How the directory call ended: an answer whose body may or may not hold
      an establishment, or an error with or without a response. */
  datatype LookupOutcome =
    | Answered(etablissement: Option<Etablissement>)
    | Failed(response: Option<ErrorResponse>)

  datatype InseeCompanyInfo = InseeCompanyInfo(
    siret: string,
    siren: string,
    name: string,
    address: string,
    postalCode: string,
    city: string,
    activity: string,
    legalForm: string,
    creationDate: string)

  const API_KEY_MISSING: Failure := HttpError(SERVICE_UNAVAILABLE, "INSEE API key not configured")
  const BAD_SIRET_FORMAT: Failure := HttpError(BAD_REQUEST, "Invalid SIRET format. Must be 14 digits.")
  const SIRET_NOT_FOUND: Failure := HttpError(NOT_FOUND, "SIRET not found in INSEE database")
  const AUTH_FAILED: Failure := HttpError(SERVICE_UNAVAILABLE, "INSEE API authentication failed")
  const LOOKUP_FAILED: Failure := HttpError(INTERNAL_SERVER_ERROR, "Failed to validate SIRET")

  /** `siret.replace(/\s/g, '')`. */
  function CleanSiret(siret: string): (clean: string)
    ensures forall i :: 0 <= i < |clean| ==> !IsJsWhitespace(clean[i])
    ensures (forall i :: 0 <= i < |siret| ==> !IsJsWhitespace(siret[i])) ==> clean == siret
    ensures (forall i :: 0 <= i < |siret| ==> IsJsWhitespace(siret[i])) ==> clean == []
  {
    StripWhitespace(siret)
  }

  /** Cleaning works piece by piece, so every character that is not white
      space is kept, in its place in the order. */
  lemma CleanSiretConcat(a: string, b: string)
    ensures CleanSiret(a + b) == CleanSiret(a) + CleanSiret(b)
  {
    StripWhitespaceConcat(a, b);
  }

  /** White space between groups of digits is dropped and the groups are kept
      in their order, so `123 456 789 00012` is checked as `12345678900012`. */
  lemma CleanSiretJoinsGroups(a: string, sep: string, b: string)
    requires forall i :: 0 <= i < |a| ==> !IsJsWhitespace(a[i])
    requires forall i :: 0 <= i < |sep| ==> IsJsWhitespace(sep[i])
    requires forall i :: 0 <= i < |b| ==> !IsJsWhitespace(b[i])
    ensures CleanSiret(a + sep + b) == a + b
  {
    CleanSiretConcat(a + sep, b);
    CleanSiretConcat(a, sep);
  }

  /** `/^\d{14}$/`: fourteen ASCII digits and nothing else, so no white
      space. */
  predicate IsSiretFormat(s: string): (ok: bool)
    ensures ok ==> |s| == 14 && forall i :: 0 <= i < |s| ==> '0' <= s[i] <= '9' && !IsJsWhitespace(s[i])
    ensures |s| != 14 ==> !ok
  {
    |s| == 14 && AllDigits(s)
  }

  /** The display name of a legal unit: its denomination, or else first name
      and surname joined by a space and trimmed. */
  function CompanyName(u: UniteLegale): (name: string)
    ensures Truthy(u.denominationUniteLegale) ==> name == u.denominationUniteLegale.value
    ensures !Truthy(u.denominationUniteLegale) ==> name == Trim(OrElse(u.prenom1UniteLegale, "") + " " + OrElse(u.nomUniteLegale, ""))
  {
    if Truthy(u.denominationUniteLegale) then u.denominationUniteLegale.value
    else Trim(OrElse(u.prenom1UniteLegale, "") + " " + OrElse(u.nomUniteLegale, ""))
  }

  /** A person without a first name is shown by the surname alone: the
      separating space is trimmed away. */
  lemma SurnameAlone(u: UniteLegale, nom: string)
    requires !Truthy(u.denominationUniteLegale) && !Truthy(u.prenom1UniteLegale)
    requires u.nomUniteLegale == Some(nom)
    requires nom != [] && !IsJsWhitespace(nom[0]) && !IsJsWhitespace(nom[|nom| - 1])
    ensures CompanyName(u) == nom
  {
    assert OrElse(u.prenom1UniteLegale, "") + " " + OrElse(u.nomUniteLegale, "") == " " + nom + "";
    TrimPadded(" ", nom, "");
  }

  /** The street line: number, type and name of the street when there is a
      street number, else empty. */
  function StreetLine(a: Option<Adresse>): (line: string)
    ensures (a.None? || !Truthy(a.value.numeroVoieEtablissement)) ==> line == ""
    ensures a.Some? && Truthy(a.value.numeroVoieEtablissement) ==>
              line == Trim(a.value.numeroVoieEtablissement.value + " " + OrElse(a.value.typeVoieEtablissement, "")
                           + " " + OrElse(a.value.libelleVoieEtablissement, ""))
  {
    if a.Some? && Truthy(a.value.numeroVoieEtablissement) then
      Trim(a.value.numeroVoieEtablissement.value + " " + OrElse(a.value.typeVoieEtablissement, "")
           + " " + OrElse(a.value.libelleVoieEtablissement, ""))
    else ""
  }

  function AddressField(a: Option<Adresse>, f: Adresse -> Option<string>): string {
    if a.Some? then OrElse(f(a.value), "") else ""
  }

  /** The details returned for an establishment with its legal unit. */
  function CompanyInfo(clean: string, e: Etablissement, u: UniteLegale): (info: InseeCompanyInfo)
    ensures info.siret == clean && info.siren == u.siren && info.name == CompanyName(u)
    ensures info.address == StreetLine(e.adresseEtablissement)
    ensures info.postalCode == AddressField(e.adresseEtablissement, (a: Adresse) => a.codePostalEtablissement)
    ensures info.city == AddressField(e.adresseEtablissement, (a: Adresse) => a.libelleCommuneEtablissement)
    ensures info.activity == OrElse(u.activitePrincipaleUniteLegale, "")
    ensures info.legalForm == OrElse(u.categorieJuridiqueUniteLegale, "")
    ensures info.creationDate == OrElse(u.dateCreationUniteLegale, "")
  {
    InseeCompanyInfo(
      clean,
      u.siren,
      CompanyName(u),
      StreetLine(e.adresseEtablissement),
      AddressField(e.adresseEtablissement, (a: Adresse) => a.codePostalEtablissement),
      AddressField(e.adresseEtablissement, (a: Adresse) => a.libelleCommuneEtablissement),
      OrElse(u.activitePrincipaleUniteLegale, ""),
      OrElse(u.categorieJuridiqueUniteLegale, ""),
      OrElse(u.dateCreationUniteLegale, ""))
  }

  /** The `catch` block: 404 is "not found", 401 and 403 are an
      authentication failure of the service, and anything else keeps the
      response's own status and message, with 500 and a generic message for
      what is absent, zero or empty. */
  function MapLookupError(response: Option<ErrorResponse>): (f: Failure)
    ensures response.Some? && response.value.status == Some(404) ==> f == SIRET_NOT_FOUND
    ensures response.Some? && response.value.status in {Some(401), Some(403)} ==> f == AUTH_FAILED
    ensures response.None? ==> f == LOOKUP_FAILED
    ensures f.HttpError?
    ensures response.Some? && response.value.status.Some? && response.value.status.value !in {0, 401, 403, 404} ==>
              f.status == response.value.status.value
    ensures response.Some? && response.value.status !in {Some(401), Some(403), Some(404)} ==>
              f.message == OrElse(response.value.message, "Failed to validate SIRET")
    ensures response.Some? && (response.value.status.None? || response.value.status == Some(0)) ==>
              f.status == INTERNAL_SERVER_ERROR
  {
    match response
    case None => LOOKUP_FAILED
    case Some(resp) =>
      if resp.status == Some(404) then SIRET_NOT_FOUND
      else if resp.status == Some(401) || resp.status == Some(403) then AUTH_FAILED
      else
        var status := if resp.status.Some? && resp.status.value != 0 then resp.status.value else INTERNAL_SERVER_ERROR;
        HttpError(status, OrElse(resp.message, "Failed to validate SIRET"))
  }

  /** `validateSiret`. The key check comes first, then the format check, both
      before any lookup; an establishment missing from the answer, or missing
      its legal unit, raises inside the `try`, so the `catch` turns it into
      500 "Failed to validate SIRET" (the exception itself has no `status`). */
  function ValidateSiret(apiKey: string, siret: string, lookup: LookupOutcome): (r: Result<InseeCompanyInfo>)
    ensures apiKey == "" ==> r == Err(API_KEY_MISSING)
    ensures apiKey != "" && !IsSiretFormat(CleanSiret(siret)) ==> r == Err(BAD_SIRET_FORMAT)
    ensures r.Ok? ==> apiKey != "" && IsSiretFormat(r.value.siret) && r.value.siret == CleanSiret(siret)
    ensures r.Ok? <==> apiKey != "" && IsSiretFormat(CleanSiret(siret)) &&
                       lookup.Answered? && lookup.etablissement.Some? && lookup.etablissement.value.uniteLegale.Some?
    ensures apiKey != "" && IsSiretFormat(CleanSiret(siret)) && lookup.Failed? ==> r == Err(MapLookupError(lookup.response))
    ensures apiKey != "" && IsSiretFormat(CleanSiret(siret)) && lookup.Answered? && r.Err? ==> r == Err(LOOKUP_FAILED)
  {
    if apiKey == "" then Err(API_KEY_MISSING)
    else
      var clean := CleanSiret(siret);
      if !IsSiretFormat(clean) then Err(BAD_SIRET_FORMAT)
      else
        match lookup
        case Failed(response) => Err(MapLookupError(response))
        case Answered(found) =>
          if found.None? then
            // The 404 raised here is caught below: it has no response status.
            Err(MapLookupError(Some(ErrorResponse(None, None))))
          else if found.value.uniteLegale.None? then
            Err(MapLookupError(None))
          else Ok(CompanyInfo(clean, found.value, found.value.uniteLegale.value))
  }

  /** White space anywhere in the SIRET is ignored: a spaced-out SIRET is
      checked and answered as the same digits written together. */
  lemma SpacesInSiretIgnored(apiKey: string, siret: string, lookup: LookupOutcome)
    ensures ValidateSiret(apiKey, siret, lookup) == ValidateSiret(apiKey, CleanSiret(siret), lookup)
  {
    StripWhitespaceIdempotent(siret);
  }

  /** An establishment the directory does not hold is reported as a server
      error, never as "not found", unless the directory itself answers 404. */
  lemma MissingEstablishmentIs500(apiKey: string, siret: string)
    requires apiKey != "" && IsSiretFormat(CleanSiret(siret))
    ensures ValidateSiret(apiKey, siret, Answered(None)) == Err(LOOKUP_FAILED)
    ensures ValidateSiret(apiKey, siret, Failed(Some(ErrorResponse(Some(404), None)))) == Err(SIRET_NOT_FOUND)
  {
  }

  /** `siret.replace(/\s/g, '').substring(0, 9)`. */
  function Siren(siret: string): (siren: string)
    ensures siren == CleanSiret(siret)[..if |CleanSiret(siret)| < 9 then |CleanSiret(siret)| else 9]
    ensures |siren| <= 9
  {
    var clean := CleanSiret(siret);
    clean[..if |clean| < 9 then |clean| else 9]
  }

  /** `validateKbis`: after the key check, the answer is true exactly when a
      non-empty SIRET's SIREN occurs in the KBIS or the KBIS has at least
      nine characters. */
  function ValidateKbis(apiKey: string, kbis: string, siret: Option<string>): (r: Result<bool>)
    ensures apiKey == "" ==> r == Err(API_KEY_MISSING)
    ensures apiKey != "" ==> r.Ok? && (r.value <==> (Truthy(siret) && Includes(kbis, Siren(siret.value))) || |kbis| >= 9)
  {
    if apiKey == "" then Err(API_KEY_MISSING)
    else if Truthy(siret) && Includes(kbis, Siren(siret.value)) then Ok(true)
    else Ok(|kbis| >= 9)
  }

  /** Any KBIS of nine characters or more is accepted, whatever the SIRET. */
  lemma LongKbisAlwaysAccepted(apiKey: string, kbis: string, siret: Option<string>)
    requires apiKey != "" && |kbis| >= 9
    ensures ValidateKbis(apiKey, kbis, siret) == Ok(true)
  {
  }

  /** A KBIS holding the SIREN is accepted even when shorter than nine. */
  lemma KbisWithSirenAccepted(apiKey: string, before: string, after: string, siret: string)
    requires apiKey != "" && siret != ""
    ensures ValidateKbis(apiKey, before + Siren(siret) + after, Some(siret)) == Ok(true)
  {
    IncludesMiddle(before, Siren(siret), after);
  }

  /** A SIRET made only of white space has an empty SIREN, which every KBIS
      contains: any KBIS is then accepted. */
  lemma BlankSiretAcceptsAnyKbis(apiKey: string, kbis: string, siret: string)
    requires apiKey != "" && siret != ""
    requires forall i :: 0 <= i < |siret| ==> IsJsWhitespace(siret[i])
    ensures ValidateKbis(apiKey, kbis, Some(siret)) == Ok(true)
  {
    StripBlank(siret);
    assert "" <= kbis[0..];
  }

  lemma {:induction false} StripBlank(s: string)
    requires forall i :: 0 <= i < |s| ==> IsJsWhitespace(s[i])
    ensures StripWhitespace(s) == ""
  {
    if s != [] {
      assert forall i :: 0 <= i < |s[1..]| ==> s[1..][i] == s[i + 1];
      StripBlank(s[1..]);
    }
  }
}
