/** The registry submission of a death report: the code tables that
    translate the form's codes into the registry's, the endpoint for the
    mode, the payload, and the shape of the result. */
module Submit {
  import opened Wrappers
  import opened Text
  import Domain
  import RegistryClient
  import Pdf
  import Documents

  // ---------------------------------------------------------------------
  // Code tables
  // ---------------------------------------------------------------------

  const DeathCauseCodes: map<string, string> := map[
    "NATURAL" := "NATURALNA", "DISEASE" := "CHOROBA", "ACCIDENT" := "WYPADEK",
    "EUTHANASIA" := "EUTANAZJA", "UNKNOWN" := "NIEZNANA"]

  const DisposalCodes: map<string, string> := map[
    "RENDERING_PLANT" := "ZAKLAD_UTYLIZACYJNY", "BURIAL" := "POCHOWEK",
    "VETERINARY" := "BADANIA_WETERYNARYJNE"]

  /** `mapping[code] || code`: the registry's code for a known one, the
      code itself otherwise; an absent code stays absent. */
  function Translate(table: map<string, string>, code: Option<string>): (r: Option<string>)
    ensures code.None? ==> r.None?
    ensures code.Some? && code.value in table && table[code.value] != "" ==> r == Some(table[code.value])
    ensures code.Some? && (code.value !in table || table[code.value] == "") ==> r == code
  {
    if code.Some? && code.value in table && table[code.value] != "" then Some(table[code.value]) else code
  }

  /** `mapDeathCause`. */
  function MapDeathCause(cause: Option<string>): (r: Option<string>)
    ensures cause.Some? && cause.value in DeathCauseCodes ==> r == Some(DeathCauseCodes[cause.value])
    ensures cause.None? || cause.value !in DeathCauseCodes ==> r == cause
  {
    Translate(DeathCauseCodes, cause)
  }

  /** `mapDisposalMethod`. */
  function MapDisposalMethod(m: Option<string>): (r: Option<string>)
    ensures m.Some? && m.value in DisposalCodes ==> r == Some(DisposalCodes[m.value])
    ensures m.None? || m.value !in DisposalCodes ==> r == m
  {
    Translate(DisposalCodes, m)
  }

  /** The form's code for each registry code of the death-cause table. */
  function CauseOf(registryCode: string): Option<string> {
    if registryCode == "NATURALNA" then Some("NATURAL")
    else if registryCode == "CHOROBA" then Some("DISEASE")
    else if registryCode == "WYPADEK" then Some("ACCIDENT")
    else if registryCode == "EUTANAZJA" then Some("EUTHANASIA")
    else if registryCode == "NIEZNANA" then Some("UNKNOWN")
    else None
  }

  function DisposalOf(registryCode: string): Option<string> {
    if registryCode == "ZAKLAD_UTYLIZACYJNY" then Some("RENDERING_PLANT")
    else if registryCode == "POCHOWEK" then Some("BURIAL")
    else if registryCode == "BADANIA_WETERYNARYJNE" then Some("VETERINARY")
    else None
  }

  /** The death-cause table is one-to-one: each known code has its own
      registry code, and the registry code gives the form's code back.
      So distinct known causes are sent as distinct registry codes. */
  lemma DeathCauseCodesInvertible(code: string)
    ensures code in DeathCauseCodes ==> CauseOf(DeathCauseCodes[code]) == Some(code)
    ensures forall rc :: CauseOf(rc).Some? ==> CauseOf(rc).value in DeathCauseCodes && DeathCauseCodes[CauseOf(rc).value] == rc
  {
  }

  lemma DisposalCodesInvertible(code: string)
    ensures code in DisposalCodes ==> DisposalOf(DisposalCodes[code]) == Some(code)
    ensures forall rc :: DisposalOf(rc).Some? ==> DisposalOf(rc).value in DisposalCodes && DisposalCodes[DisposalOf(rc).value] == rc
  {
  }

  /** Distinct known causes translate to distinct registry codes. */
  lemma MapDeathCauseInjective(a: string, b: string)
    requires a in DeathCauseCodes && b in DeathCauseCodes && a != b
    ensures MapDeathCause(Some(a)) != MapDeathCause(Some(b))
  {
    DeathCauseCodesInvertible(a);
    DeathCauseCodesInvertible(b);
  }

  lemma MapDisposalMethodInjective(a: string, b: string)
    requires a in DisposalCodes && b in DisposalCodes && a != b
    ensures MapDisposalMethod(Some(a)) != MapDisposalMethod(Some(b))
  {
    DisposalCodesInvertible(a);
    DisposalCodesInvertible(b);
  }

  /** The fallback does not keep the translation one-to-one on all inputs:
      a form that already holds a registry code is sent as that code. */
  lemma PassThroughMeetsTranslation()
    ensures MapDeathCause(Some("NATURALNA")) == MapDeathCause(Some("NATURAL"))
  {
    assert "NATURALNA" !in DeathCauseCodes;
  }

  // ---------------------------------------------------------------------
  // Request and result
  // ---------------------------------------------------------------------

  const DefaultBaseUrl := "https://irz.arimr.gov.pl/api"
  const EndpointPrefix := "/indywidualne/dokument/api"
  const TestEndpoint := EndpointPrefix + "/test/" + "zpzu"
  const ProdEndpoint := EndpointPrefix + "/prod/" + "zpzu"

  /** The endpoint of the death report for the deployment's environment. */
  function DeathReportEndpoint(nodeEnv: Option<string>): (r: string)
    ensures nodeEnv != Some("production") ==> r == TestEndpoint
    ensures nodeEnv == Some("production") ==> r == ProdEndpoint
  {
    if RegistryClient.ModeOf(nodeEnv) == RegistryClient.TestMode then TestEndpoint else ProdEndpoint
  }

  /** The two endpoints are each other's image under the registry client's
      mode rewriting: they differ only in the mode segment. */
  lemma EndpointsAgreeWithRewriting()
    ensures RegistryClient.EndpointPath(RegistryClient.ProdMode, TestEndpoint) == ProdEndpoint
    ensures RegistryClient.EndpointPath(RegistryClient.TestMode, ProdEndpoint) == TestEndpoint
  {
    TestSegmentAt();
    ProdSegmentAt();
    ReplaceFirstAt(TestEndpoint, "/test/", "/prod/", 26);
    ReplaceFirstAt(ProdEndpoint, "/prod/", "/test/", 26);
    assert TestEndpoint[..26] == EndpointPrefix && TestEndpoint[32..] == "zpzu";
    assert ProdEndpoint[..26] == EndpointPrefix && ProdEndpoint[32..] == "zpzu";
  }

  lemma TestSegmentAt()
    ensures IsAt(TestEndpoint, "/test/", 26)
    ensures forall i :: 0 <= i < 26 ==> !IsAt(TestEndpoint, "/test/", i)
  {
    forall i | 0 <= i < 26 ensures !IsAt(TestEndpoint, "/test/", i) {
      assert TestEndpoint[i] != '/' || TestEndpoint[i + 1] != 't';
      NotAtWhenHeadDiffers(TestEndpoint, "/test/", i);
    }
  }

  lemma ProdSegmentAt()
    ensures IsAt(ProdEndpoint, "/prod/", 26)
    ensures forall i :: 0 <= i < 26 ==> !IsAt(ProdEndpoint, "/prod/", i)
  {
    forall i | 0 <= i < 26 ensures !IsAt(ProdEndpoint, "/prod/", i) {
      assert ProdEndpoint[i] != '/' || ProdEndpoint[i + 1] != 'p';
      NotAtWhenHeadDiffers(ProdEndpoint, "/prod/", i);
    }
  }

  /** Replacing the first occurrence, once it is known where it is. */
  lemma ReplaceFirstAt(s: string, pat: string, rep: string, i: nat)
    requires IsAt(s, pat, i) && forall j :: 0 <= j < i ==> !IsAt(s, pat, j)
    ensures ReplaceFirst(s, pat, rep) == s[..i] + rep + s[i + |pat|..]
  {
    var k := IndexOf(s, pat);
    assert k.Some?;
    if k.value < i { assert false; }
    if k.value > i { assert false; }
  }

  lemma NotAtWhenHeadDiffers(s: string, pat: string, i: nat)
    requires i + 1 < |s| && |pat| >= 2 && (s[i] != pat[0] || s[i + 1] != pat[1])
    ensures !IsAt(s, pat, i)
  {
    if i + |pat| <= |s| {
      assert s[i..i + |pat|][0] == s[i] && s[i..i + |pat|][1] == s[i + 1];
    }
  }

  /** The body posted to the registry; a field absent from the form is
      absent here too. */
  datatype Payload = Payload(
    numerKolczyka: Option<string>,
    dataPadniecia: Option<string>,
    przyczynaPadniecia: Option<string>,
    sposobUtylizacji: Option<string>,
    numerProducenta: Option<string>)

  function BuildPayload(fd: Pdf.FormData): (p: Payload)
    ensures p.numerKolczyka == Pdf.Field(fd, "earTagNumber")
    ensures p.dataPadniecia == Pdf.Field(fd, "deathDate")
    ensures p.numerProducenta == Pdf.Field(fd, "producerNumber")
    ensures p.przyczynaPadniecia == MapDeathCause(Pdf.Field(fd, "deathCause"))
    ensures p.sposobUtylizacji == MapDisposalMethod(Pdf.Field(fd, "disposalMethod"))
  {
    Payload(Pdf.Field(fd, "earTagNumber"), Pdf.Field(fd, "deathDate"),
            MapDeathCause(Pdf.Field(fd, "deathCause")), MapDisposalMethod(Pdf.Field(fd, "disposalMethod")),
            Pdf.Field(fd, "producerNumber"))
  }

  /** The request: where it goes, with which bearer token and body. */
  datatype Request = Request(url: string, bearer: string, payload: Payload)

  /** `{ success, documentNumber?, error? }`. */
  datatype Reply = Sent(documentNumber: string) | NotSent(error: string)

  /** `submitDeathReport`. The token request and the registry's answer are
      inputs: the answer is the response's `numerDokumentu` (if any) or the
      message of the transport error. A missing document or a failed token
      request raises; a transport error is returned, not raised. */
  function SubmitDeathReport(db: Documents.Db, id: string, baseUrl: Option<string>, nodeEnv: Option<string>,
                             token: Result<string, string>, answer: Result<Option<string>, string>, now: nat)
    : (r: Result<(Request, Reply), string>)
    ensures id !in db.documents ==> r == Err(Documents.DocumentNotFound)
    ensures id in db.documents && token.Err? ==> r == Err(token.error)
    ensures r.Ok? <==> id in db.documents && token.Ok?
    ensures r.Ok? ==>
      var (req, reply) := r.value;
      && req.url == OrElse(baseUrl, DefaultBaseUrl) + DeathReportEndpoint(nodeEnv)
      && req.bearer == token.value
      && req.payload == BuildPayload(db.documents[id].formData)
      && (reply.Sent? <==> answer.Ok?)
      && (answer.Ok? && Truthy(answer.value) ==> reply.documentNumber == answer.value.value)
      && (answer.Ok? && !Truthy(answer.value) ==> reply.documentNumber == "ZPZU-" + NatToString(now))
      && (answer.Err? ==> reply.error == answer.error)
  {
    if id !in db.documents then Err(Documents.DocumentNotFound)
    else match token
      case Err(e) => Err(e)
      case Ok(t) =>
        var req := Request(OrElse(baseUrl, DefaultBaseUrl) + DeathReportEndpoint(nodeEnv), t,
                           BuildPayload(db.documents[id].formData));
        match answer
        case Ok(number) => Ok((req, Sent(OrElse(number, "ZPZU-" + NatToString(now)))))
        case Err(message) => Ok((req, NotSent(message)))
  }

  /** A death report filed by the document service is sent with the
      registry's codes for its cause and disposal method. */
  lemma FiledReportTranslated(dto: Documents.DeathReportDto, a: Domain.Animal, farm: Domain.Farm)
    ensures var p := BuildPayload(Documents.DeathFormData(dto, a, farm));
            && p.numerKolczyka == Some(dto.animal.earTagNumber)
            && p.przyczynaPadniecia == Some(DeathCauseCodes[Documents.DeathCauseName(dto.deathCause)])
            && p.sposobUtylizacji == Some(DisposalCodes[Documents.DisposalMethodName(dto.disposalMethod)])
  {
    var fd := Documents.DeathFormData(dto, a, farm);
    Documents.DeathFormFields(dto, a, farm, fd);
  }
}
