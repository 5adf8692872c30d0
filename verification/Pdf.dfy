/** The report printer: a one-page PDF whose text operators draw the lines
    of a death, birth or transfer report. Strings are escaped for PDF
    literal strings (ISO 32000-1, section 7.3.4.2) and Polish letters are
    folded to ASCII for the built-in Helvetica font. */
module Pdf {
  import opened Wrappers
  import opened Text

  // ---------------------------------------------------------------------
  // Escaping
  // ---------------------------------------------------------------------

  /** `s.replace(/c/g, rep)` for a single character `c`. */
  function ReplaceAllChar(s: string, c: char, rep: string): string {
    if s == [] then []
    else (if s[0] == c then rep else [s[0]]) + ReplaceAllChar(s[1..], c, rep)
  }

  /** `escapePdfString` as the source writes it: three global passes, then
      the diacritic fold. */
  function EscapePasses(s: string): string {
    Fold(Passes(s))
  }

  predicate Special(c: char) {
    c == '\\' || c == '(' || c == ')'
  }

  /** The escape of one character: a backslash before the three characters
      that are special inside a literal string, the fold elsewhere. */
  function EscapeChar(c: char): (r: string)
    ensures Special(c) ==> r == ['\\', c]
    ensures !Special(c) ==> r == [FoldChar(c)] && !Special(FoldChar(c))
  {
    FoldCharSpec(c);
    if Special(c) then ['\\', c] else [FoldChar(c)]
  }

  /** The per-character reading of the escape. */
  function Escape(s: string): (r: string)
    ensures |r| == |s| + CountSpecial(s)
  {
    if s == [] then [] else EscapeChar(s[0]) + Escape(s[1..])
  }

  function CountSpecial(s: string): nat {
    if s == [] then 0 else (if Special(s[0]) then 1 else 0) + CountSpecial(s[1..])
  }

  lemma {:induction false} ReplaceAllCharConcat(a: string, b: string, c: char, rep: string)
    ensures ReplaceAllChar(a + b, c, rep) == ReplaceAllChar(a, c, rep) + ReplaceAllChar(b, c, rep)
  {
    if a == [] {
      assert a + b == b;
    } else {
      ReplaceAllCharConcat(a[1..], b, c, rep);
      ReplaceAllCharCons(a + b, c, rep);
      assert (a + b)[0] == a[0] && (a + b)[1..] == a[1..] + b;
      var h := if a[0] == c then rep else [a[0]];
      var ra, rb := ReplaceAllChar(a[1..], c, rep), ReplaceAllChar(b, c, rep);
      AppendAssoc(h, ra, rb);
    }
  }

  lemma AppendAssoc(x: string, y: string, z: string)
    ensures x + (y + z) == (x + y) + z
  {
  }

  lemma ReplaceAllCharCons(s: string, c: char, rep: string)
    requires s != []
    ensures ReplaceAllChar(s, c, rep) == (if s[0] == c then rep else [s[0]]) + ReplaceAllChar(s[1..], c, rep)
  {
  }

  lemma FoldConcat(a: string, b: string)
    ensures Fold(a + b) == Fold(a) + Fold(b)
  {
  }

  /** The passes, as one function of the text. */
  function Passes(s: string): string {
    ReplaceAllChar(ReplaceAllChar(ReplaceAllChar(s, '\\', "\\\\"), '(', "\\("), ')', "\\)")
  }

  lemma PassesConcat(a: string, b: string)
    ensures Passes(a + b) == Passes(a) + Passes(b)
  {
    var a1, b1 := ReplaceAllChar(a, '\\', "\\\\"), ReplaceAllChar(b, '\\', "\\\\");
    ReplaceAllCharConcat(a, b, '\\', "\\\\");
    var a2, b2 := ReplaceAllChar(a1, '(', "\\("), ReplaceAllChar(b1, '(', "\\(");
    ReplaceAllCharConcat(a1, b1, '(', "\\(");
    ReplaceAllCharConcat(a2, b2, ')', "\\)");
  }

  lemma PassesOneChar(c: char)
    ensures Fold(Passes([c])) == EscapeChar(c)
  {
    ReplaceSingle(c, '\\', "\\\\");
    if c == '\\' {
      ReplaceAbsent("\\\\", '(', "\\(");
      ReplaceAbsent("\\\\", ')', "\\)");
      FoldPlain("\\\\");
    } else {
      ReplaceSingle(c, '(', "\\(");
      if c == '(' {
        ReplaceAbsent("\\(", ')', "\\)");
        FoldPlain("\\(");
      } else {
        ReplaceSingle(c, ')', "\\)");
        if c == ')' {
          FoldPlain("\\)");
        } else {
          FoldCharSpec(c);
        }
      }
    }
  }

  /** One pass over a single character. */
  lemma ReplaceSingle(c: char, x: char, rep: string)
    ensures ReplaceAllChar([c], x, rep) == if c == x then rep else [c]
  {
    assert [c][1..] == [];
  }

  /** A pass for a character the text does not contain changes nothing. */
  lemma {:induction false} ReplaceAbsent(s: string, x: char, rep: string)
    requires x !in s
    ensures ReplaceAllChar(s, x, rep) == s
  {
    if s != [] {
      assert s[0] != x;
      assert x !in s[1..];
      ReplaceAbsent(s[1..], x, rep);
      assert s == [s[0]] + s[1..];
    }
  }

  /** The fold leaves backslashes and parentheses alone. */
  lemma FoldPlain(s: string)
    requires forall i :: 0 <= i < |s| ==> Special(s[i])
    ensures Fold(s) == s
  {
    forall i | 0 <= i < |s| ensures Fold(s)[i] == s[i] {
      FoldCharSpec(s[i]);
    }
  }

  /** The three passes and the fold amount to escaping each character on
      its own: a backslash the first pass inserts is never touched again. */
  lemma {:induction false} EscapePassesPerChar(s: string)
    ensures EscapePasses(s) == Escape(s)
  {
    if s != [] {
      assert s == [s[0]] + s[1..];
      PassesConcat([s[0]], s[1..]);
      FoldConcat(Passes([s[0]]), Passes(s[1..]));
      PassesOneChar(s[0]);
      EscapePassesPerChar(s[1..]);
    }
  }

  /** Reads a PDF literal string body back: `\\`, `\(` and `\)` stand for
      the character after the backslash; any other backslash, and an
      unescaped parenthesis, is rejected. */
  function Unescape(t: string): (r: Option<string>)
    decreases |t|
  {
    if t == [] then Some([])
    else if t[0] == '\\' then
      if |t| >= 2 && Special(t[1]) then
        match Unescape(t[2..])
        case None => None
        case Some(u) => Some([t[1]] + u)
      else None
    else if t[0] == '(' || t[0] == ')' then None
    else
      match Unescape(t[1..])
      case None => None
      case Some(u) => Some([t[0]] + u)
  }

  /** Escaping loses only the diacritics: reading the escaped text back
      gives the folded input, so the result never holds a stray
      parenthesis or backslash. */
  lemma {:induction false} UnescapeEscape(s: string)
    ensures Unescape(Escape(s)) == Some(Fold(s))
  {
    if s != [] {
      var c := s[0];
      UnescapeEscape(s[1..]);
      var e := Escape(s);
      assert e == EscapeChar(c) + Escape(s[1..]);
      assert Fold(s) == [FoldChar(c)] + Fold(s[1..]);
      FoldCharSpec(c);
      if Special(c) {
        assert e[2..] == Escape(s[1..]);
      } else {
        assert e[1..] == Escape(s[1..]);
      }
    }
  }

  lemma {:induction false} EscapeOfFold(s: string)
    ensures Escape(Fold(s)) == Escape(s)
  {
    if s != [] {
      EscapeOfFold(s[1..]);
      assert Fold(s) == [FoldChar(s[0])] + Fold(s[1..]);
      assert Fold(s)[1..] == Fold(s[1..]);
      FoldCharSpec(s[0]);
    }
  }

  /** Two texts print the same exactly when they agree up to diacritics. */
  lemma EscapeSameIff(s1: string, s2: string)
    ensures Escape(s1) == Escape(s2) <==> Fold(s1) == Fold(s2)
  {
    UnescapeEscape(s1);
    UnescapeEscape(s2);
    EscapeOfFold(s1);
    EscapeOfFold(s2);
  }

  // ---------------------------------------------------------------------
  // The document
  // ---------------------------------------------------------------------

  /** The operator that draws line `i` of the body. An empty line only
      moves down by 10; the first line moves by 30, the others by 15. */
  function ContentLine(i: nat, line: string): (r: string)
    ensures line == "" ==> r == "0 -10 Td () Tj"
    ensures line != "" ==> r == "0 " + (if i == 0 then "-30" else "-15") + " Td (" + Escape(line) + ") Tj"
  {
    if line == "" then "0 -10 Td () Tj"
    else "0 " + (if i == 0 then "-30" else "-15") + " Td (" + Escape(line) + ") Tj"
  }

  function ContentLines(lines: seq<string>): (r: seq<string>)
    ensures |r| == |lines|
    ensures forall i :: 0 <= i < |lines| ==> r[i] == ContentLine(i, lines[i])
  {
    seq(|lines|, i requires 0 <= i < |lines| => ContentLine(i, lines[i]))
  }

  const Header :=
    "%PDF-1.4\n1 0 obj\n<< /Type /Catalog /Pages 2 0 R >>\nendobj\n2 0 obj\n"
    + "<< /Type /Pages /Kids [3 0 R] /Count 1 >>\nendobj\n3 0 obj\n"
    + "<< /Type /Page /Parent 2 0 R /MediaBox [0 0 612 792] /Contents 4 0 R /Resources << /Font << /F1 5 0 R >> >> >>\n"
    + "endobj\n4 0 obj\n<< /Length 2000 >>\nstream\nBT\n/F1 16 Tf\n50 750 Td\n("

  const AfterTitle := ") Tj\n/F1 12 Tf\n"

  const Trailer :=
    "\nET\nendstream\nendobj\n5 0 obj\n<< /Type /Font /Subtype /Type1 /BaseFont /Helvetica >>\nendobj\n"
    + "xref\n0 6\n0000000000 65535 f\n0000000009 00000 n\n0000000058 00000 n\n0000000115 00000 n\n"
    + "0000000266 00000 n\n0000002320 00000 n\ntrailer\n<< /Size 6 /Root 1 0 R >>\nstartxref\n2397\n%%EOF"

  /** `buildPdf`: the escaped title in 16 pt, then one operator per line
      in 12 pt, between a fixed header and trailer. */
  function BuildPdf(title: string, lines: seq<string>): (r: string)
    ensures Framed(r, Header, Escape(title), AfterTitle, Join(ContentLines(lines), '\n'), Trailer)
  {
    var body := Join(ContentLines(lines), '\n');
    FramedParts(Header, Escape(title), AfterTitle, body, Trailer);
    Header + Escape(title) + AfterTitle + body + Trailer
  }

  /** `r` is `h`, then `t`, then `a`, then `b`, then `z`, each found back
      at its own place. */
  predicate Framed(r: string, h: string, t: string, a: string, b: string, z: string) {
    var p := |h| + |t| + |a|;
    && |r| == p + |b| + |z|
    && r[..|h|] == h
    && r[|h|..|h| + |t|] == t
    && r[|h| + |t|..p] == a
    && r[p..|r| - |z|] == b
    && r[|r| - |z|..] == z
  }

  lemma FramedParts(h: string, t: string, a: string, b: string, z: string)
    ensures Framed(h + t + a + b + z, h, t, a, b, z)
  {
    var r := h + t + a + b + z;
    assert r[..|h|] == h;
    assert r[|h|..|h| + |t|] == t;
  }

  /** The file `r` reads back as `title` over the operators `ops`: the
      title slot unescapes to the folded title, and the stream between it
      and the trailer splits into `ops`. */
  predicate ReadsBack(r: string, title: string, ops: seq<string>) {
    var p := |Header| + |Escape(title)| + |AfterTitle|;
    && p + |Trailer| <= |r|
    && Unescape(r[|Header|..|Header| + |Escape(title)|]) == Some(Fold(title))
    && Split(r[p..|r| - |Trailer|], '\n') == ops
  }

  /** The file reads back as its title over one drawing operator per
      report line, in order, when no line breaks inside. */
  lemma BuildPdfReadsBack(title: string, lines: seq<string>)
    requires |lines| > 0
    requires forall i :: 0 <= i < |lines| ==> '\n' !in lines[i]
    ensures ReadsBack(BuildPdf(title, lines), title, ContentLines(lines))
  {
    var r := BuildPdf(title, lines);
    FramedTitle(r, Header, title, AfterTitle, Join(ContentLines(lines), '\n'), Trailer);
    FramedBody(r, Header, Escape(title), AfterTitle, lines, Trailer);
  }

  lemma FramedTitle(r: string, h: string, title: string, a: string, b: string, z: string)
    requires Framed(r, h, Escape(title), a, b, z)
    ensures Unescape(r[|h|..|h| + |Escape(title)|]) == Some(Fold(title))
  {
    assert r[|h|..|h| + |Escape(title)|] == Escape(title);
    UnescapeEscape(title);
  }

  lemma FramedBody(r: string, h: string, t: string, a: string, lines: seq<string>, z: string)
    requires Framed(r, h, t, a, Join(ContentLines(lines), '\n'), z)
    requires |lines| > 0
    requires forall i :: 0 <= i < |lines| ==> '\n' !in lines[i]
    ensures Split(r[|h| + |t| + |a|..|r| - |z|], '\n') == ContentLines(lines)
  {
    assert r[|h| + |t| + |a|..|r| - |z|] == Join(ContentLines(lines), '\n');
    BodyOperators(lines);
  }

  /** When no line breaks inside, the body splits back into exactly one
      drawing operator per report line, in order. */
  lemma BodyOperators(lines: seq<string>)
    requires |lines| > 0
    requires forall i :: 0 <= i < |lines| ==> '\n' !in lines[i]
    ensures Split(Join(ContentLines(lines), '\n'), '\n') == ContentLines(lines)
  {
    var ops := ContentLines(lines);
    forall k | 0 <= k < |ops| ensures '\n' !in ops[k] {
      var e := Escape(lines[k]);
      NewlineSurvivesEscape(lines[k]);
    }
    SplitJoin(ops, '\n');
  }

  /** Escaping introduces no line break. */
  lemma {:induction false} NewlineSurvivesEscape(s: string)
    ensures '\n' in Escape(s) <==> '\n' in s
  {
    if s != [] {
      NewlineSurvivesEscape(s[1..]);
      FoldCharSpec(s[0]);
      assert Escape(s) == EscapeChar(s[0]) + Escape(s[1..]);
      assert s == [s[0]] + s[1..];
    }
  }

  // ---------------------------------------------------------------------
  // Report data
  // ---------------------------------------------------------------------

  /** The document's form data, as stored: field name to text. */
  type FormData = map<string, string>

  function Field(fd: FormData, key: string): Option<string> {
    if key in fd then Some(fd[key]) else None
  }

  /** A template interpolation: a missing field prints as `undefined`. */
  function Show(v: Option<string>): (r: string)
    ensures v.Some? ==> r == v.value
    ensures v.None? ==> r == "undefined"
  {
    v.GetOr("undefined")
  }

  /** `formData[key] || '-'`. */
  function OrDash(v: Option<string>): (r: string)
    ensures Truthy(v) ==> r == v.value
    ensures !Truthy(v) ==> r == "-"
  {
    OrElse(v, "-")
  }

  /** `names[v] || v`: the label of a known code, otherwise the value as it
      prints. */
  function Label(names: map<string, string>, v: Option<string>): string {
    if v.Some? && v.value in names && names[v.value] != "" then names[v.value] else Show(v)
  }

  const SpeciesNames: map<string, string> := map[
    "CATTLE" := "Bydło", "SHEEP" := "Owce", "GOAT" := "Kozy", "PIG" := "Świnie",
    "HORSE" := "Koniowate", "POULTRY" := "Drób", "DEER" := "Jeleniowate", "CAMEL" := "Wielbłądowate"]

  const GenderNames: map<string, string> := map["MALE" := "Samiec", "FEMALE" := "Samica"]

  const DisposalNames: map<string, string> := map[
    "RENDERING_PLANT" := "Zakład utylizacyjny",
    "BURIAL" := "Pochówek na terenie gospodarstwa",
    "VETERINARY" := "Przekazano do badań weterynaryjnych"]

  const DeathCauseNames: map<string, string> := map[
    "NATURAL" := "Przyczyny naturalne", "DISEASE" := "Choroba", "ACCIDENT" := "Wypadek",
    "EUTHANASIA" := "Eutanazja", "UNKNOWN" := "Nieznana"]

  const DirectionNames: map<string, string> := map["IN" := "Przyjecie do gospodarstwa", "OUT" := "Wydanie z gospodarstwa"]

  /** A table whose labels are non-empty and pairwise distinct. */
  predicate LabelTable(names: map<string, string>) {
    (forall k :: k in names ==> names[k] != "") &&
    (forall a, b :: a in names && b in names && a != b ==> names[a] != names[b])
  }

  /** A known code prints as its label, anything else as itself. */
  lemma LabelSpec(names: map<string, string>, v: Option<string>)
    requires LabelTable(names)
    ensures v.Some? && v.value in names ==> Label(names, v) == names[v.value]
    ensures !(v.Some? && v.value in names) ==> Label(names, v) == Show(v)
  {
  }

  /** With distinct labels, a printed label names its code: two known codes
      print alike only when they are the same code. */
  lemma LabelIdentifiesCode(names: map<string, string>, a: string, b: string)
    requires LabelTable(names)
    requires a in names && b in names
    ensures Label(names, Some(a)) == Label(names, Some(b)) <==> a == b
  {
  }

  lemma SpeciesNamesLabelTable() ensures LabelTable(SpeciesNames) {}
  lemma GenderNamesLabelTable() ensures LabelTable(GenderNames) {}
  lemma DisposalNamesLabelTable() ensures LabelTable(DisposalNames) {}
  lemma DeathCauseNamesLabelTable() ensures LabelTable(DeathCauseNames) {}
  lemma DirectionNamesLabelTable() ensures LabelTable(DirectionNames) {}

  /** The text of the dates: `toLocaleDateString('pl-PL')` of the event
      date and of the creation time, supplied by the caller. */
  datatype ReportDates = ReportDates(eventDate: string, createdDate: string)

  const Signature := "Podpis: _______________________"

  // The three reports share their farm block, the death and transfer
  // reports their animal block, and all three the closing block; each
  // report's lines are these blocks in the order the report prints them.

  /** The reporting farm: a heading, the producer and herd numbers as
      stored, and the farm name or a dash. */
  function FarmSection(heading: string, fd: FormData, farmName: Option<string>): (r: seq<string>)
    ensures |r| == 4
  {
    [heading,
     "Nr producenta: " + Show(Field(fd, "producerNumber")),
     "Nr siedziby stada: " + Show(Field(fd, "herdNumber")),
     "Nazwa: " + OrDash(farmName)]
  }

  /** The animal in the death and transfer reports. */
  function AnimalSection(fd: FormData): (r: seq<string>)
    ensures |r| == 4
  {
    ["DANE ZWIERZECIA:",
     "Nr kolczyka: " + Show(Field(fd, "earTagNumber")),
     "Gatunek: " + Label(SpeciesNames, Field(fd, "species")),
     "Rasa: " + OrDash(Field(fd, "breed"))]
  }

  /** The date the report was drawn up, then the signature line. */
  function ClosingSection(dates: ReportDates): (r: seq<string>)
    ensures |r| == 4
  {
    ["", "Data sporzadzenia: " + dates.createdDate, "", Signature]
  }

  /** `buildDeathReportContent`: title and lines. */
  function DeathReportLines(fd: FormData, farmName: Option<string>, dates: ReportDates): (r: seq<string>)
    ensures |r| == 21
  {
    var place := Field(fd, "deathPlace");
    ["Formularz ZPZU - Zgloszenie padniecia/zabicia/uboju", ""]
    + FarmSection("DANE GOSPODARSTWA:", fd, farmName) + [""]
    + AnimalSection(fd) + [""]
    + ["DANE ZDARZENIA:",
       "Data padniecia: " + dates.eventDate,
       "Przyczyna: " + Label(DeathCauseNames, Field(fd, "deathCause")),
       "Miejsce: " + (if place == Some("GOSPODARSTWO") then "Gospodarstwo" else Show(place)),
       "Sposob utylizacji: " + Label(DisposalNames, Field(fd, "disposalMethod"))]
    + ClosingSection(dates)
  }

  /** The death report prints the farm name or a dash, the Polish labels
      of known species, death-cause and disposal codes (the raw code
      otherwise) and the breed or a dash, and ends with the signature
      line. */
  lemma DeathReportFields(fd: FormData, farmName: Option<string>, dates: ReportDates, r: seq<string>)
    requires r == DeathReportLines(fd, farmName, dates)
    ensures r[5] == "Nazwa: " + OrDash(farmName)
    ensures r[9] == "Gatunek: " + Label(SpeciesNames, Field(fd, "species"))
    ensures r[10] == "Rasa: " + OrDash(Field(fd, "breed"))
    ensures r[14] == "Przyczyna: " + Label(DeathCauseNames, Field(fd, "deathCause"))
    ensures r[16] == "Sposob utylizacji: " + Label(DisposalNames, Field(fd, "disposalMethod"))
    ensures r[20] == Signature
  {
  }

  /** The death report prints the farm as the place of death for
      `GOSPODARSTWO` and the stored place otherwise. */
  lemma DeathReportPlace(fd: FormData, farmName: Option<string>, dates: ReportDates, r: seq<string>)
    requires r == DeathReportLines(fd, farmName, dates)
    ensures Field(fd, "deathPlace") == Some("GOSPODARSTWO") ==> r[15] == "Miejsce: Gospodarstwo"
    ensures Field(fd, "deathPlace") != Some("GOSPODARSTWO") ==> r[15] == "Miejsce: " + Show(Field(fd, "deathPlace"))
  {
  }

  /** The death report prints the producer, herd and ear-tag fields as
      stored and the two dates. */
  lemma DeathReportIdentification(fd: FormData, farmName: Option<string>, dates: ReportDates, r: seq<string>)
    requires r == DeathReportLines(fd, farmName, dates)
    ensures r[3] == "Nr producenta: " + Show(Field(fd, "producerNumber"))
    ensures r[4] == "Nr siedziby stada: " + Show(Field(fd, "herdNumber"))
    ensures r[8] == "Nr kolczyka: " + Show(Field(fd, "earTagNumber"))
    ensures r[13] == "Data padniecia: " + dates.eventDate
    ensures r[18] == "Data sporzadzenia: " + dates.createdDate
  {
  }

  /** `buildBirthReportContent`. */
  function BirthReportLines(fd: FormData, farmName: Option<string>, dates: ReportDates): (r: seq<string>)
    ensures |r| == 20
  {
    ["Formularz ZZU - Zgloszenie urodzenia zwierzecia", ""]
    + FarmSection("DANE GOSPODARSTWA:", fd, farmName) + [""]
    + ["DANE NOWORODKA:",
       "Nr kolczyka: " + Show(Field(fd, "earTagNumber")),
       "Gatunek: " + Label(SpeciesNames, Field(fd, "species")),
       "Plec: " + Label(GenderNames, Field(fd, "gender")),
       "Data urodzenia: " + dates.eventDate,
       "Rasa: " + OrDash(Field(fd, "breed")),
       "",
       "DANE MATKI:",
       "Nr kolczyka matki: " + OrElse(Field(fd, "motherEarTag"), "nieznany")]
    + ClosingSection(dates)
  }

  /** The birth report prints the farm name or a dash, the species and
      gender labels, the breed or a dash, and the mother's ear tag or
      `nieznany` when there is none, and ends with the signature line. */
  lemma BirthReportFields(fd: FormData, farmName: Option<string>, dates: ReportDates, r: seq<string>)
    requires r == BirthReportLines(fd, farmName, dates)
    ensures r[5] == "Nazwa: " + OrDash(farmName)
    ensures r[9] == "Gatunek: " + Label(SpeciesNames, Field(fd, "species"))
    ensures r[10] == "Plec: " + Label(GenderNames, Field(fd, "gender"))
    ensures r[12] == "Rasa: " + OrDash(Field(fd, "breed"))
    ensures Truthy(Field(fd, "motherEarTag")) ==> r[15] == "Nr kolczyka matki: " + fd["motherEarTag"]
    ensures !Truthy(Field(fd, "motherEarTag")) ==> r[15] == "Nr kolczyka matki: nieznany"
    ensures r[19] == Signature
  {
  }

  /** The birth report prints the producer, herd and ear-tag fields as
      stored and the two dates. */
  lemma BirthReportIdentification(fd: FormData, farmName: Option<string>, dates: ReportDates, r: seq<string>)
    requires r == BirthReportLines(fd, farmName, dates)
    ensures r[3] == "Nr producenta: " + Show(Field(fd, "producerNumber"))
    ensures r[4] == "Nr siedziby stada: " + Show(Field(fd, "herdNumber"))
    ensures r[8] == "Nr kolczyka: " + Show(Field(fd, "earTagNumber"))
    ensures r[11] == "Data urodzenia: " + dates.eventDate
    ensures r[17] == "Data sporzadzenia: " + dates.createdDate
  {
  }

  /** The heading over the other farm: the destination when the animal
      leaves, the source otherwise. */
  function OtherFarmLabel(direction: Option<string>): (r: string)
    ensures r == "GOSPODARSTWO DOCELOWE" <==> direction == Some("OUT")
    ensures r != "GOSPODARSTWO DOCELOWE" ==> r == "GOSPODARSTWO ZRODLOWE"
  {
    if direction == Some("OUT") then "GOSPODARSTWO DOCELOWE" else "GOSPODARSTWO ZRODLOWE"
  }

  /** `buildTransferReportContent`. */
  function TransferReportLines(fd: FormData, farmName: Option<string>, dates: ReportDates): (r: seq<string>)
    ensures |r| == 26
  {
    ["Formularz ZPZ - Zgloszenie przemieszczenia zwierzecia", ""]
    + FarmSection("DANE GOSPODARSTWA ZGLASZAJACEGO:", fd, farmName) + [""]
    + AnimalSection(fd) + [""]
    + ["DANE PRZEMIESZCZENIA:",
       "Typ: " + Label(DirectionNames, Field(fd, "direction")),
       "Data przemieszczenia: " + dates.eventDate,
       "Powod: " + OrDash(Field(fd, "reason")),
       "Nr dokumentu przewozowego: " + OrDash(Field(fd, "transportDocNumber")),
       "",
       OtherFarmLabel(Field(fd, "direction")) + ":",
       "Nr producenta: " + Show(Field(fd, "otherProducerNumber")),
       "Nr siedziby stada: " + Show(Field(fd, "otherHerdNumber")),
       "Nazwa: " + OrDash(Field(fd, "otherFarmName"))]
    + ClosingSection(dates)
  }

  /** The transfer report prints the direction label, a dash for a missing
      reason, transport document or other farm name, heads the other farm
      as the destination exactly when the animal leaves, and ends with the
      signature line. */
  lemma TransferReportFields(fd: FormData, farmName: Option<string>, dates: ReportDates, r: seq<string>)
    requires r == TransferReportLines(fd, farmName, dates)
    ensures r[13] == "Typ: " + Label(DirectionNames, Field(fd, "direction"))
    ensures r[15] == "Powod: " + OrDash(Field(fd, "reason"))
    ensures r[16] == "Nr dokumentu przewozowego: " + OrDash(Field(fd, "transportDocNumber"))
    ensures r[18] == OtherFarmLabel(Field(fd, "direction")) + ":"
    ensures r[21] == "Nazwa: " + OrDash(Field(fd, "otherFarmName"))
    ensures r[25] == Signature
  {
  }

  /** The transfer report prints the reporting farm's producer and herd
      numbers and its name. */
  lemma TransferReportIdentification(fd: FormData, farmName: Option<string>, dates: ReportDates, r: seq<string>)
    requires r == TransferReportLines(fd, farmName, dates)
    ensures r[3] == "Nr producenta: " + Show(Field(fd, "producerNumber"))
    ensures r[4] == "Nr siedziby stada: " + Show(Field(fd, "herdNumber"))
    ensures r[5] == "Nazwa: " + OrDash(farmName)
  {
  }

  /** The transfer report prints the animal's tag, species label and breed. */
  lemma TransferReportAnimal(fd: FormData, farmName: Option<string>, dates: ReportDates, r: seq<string>)
    requires r == TransferReportLines(fd, farmName, dates)
    ensures r[8] == "Nr kolczyka: " + Show(Field(fd, "earTagNumber"))
    ensures r[9] == "Gatunek: " + Label(SpeciesNames, Field(fd, "species"))
    ensures r[10] == "Rasa: " + OrDash(Field(fd, "breed"))
  {
  }

  /** The transfer report prints the other farm's producer and herd
      numbers as stored and the two dates. */
  lemma TransferReportOtherFarm(fd: FormData, farmName: Option<string>, dates: ReportDates, r: seq<string>)
    requires r == TransferReportLines(fd, farmName, dates)
    ensures r[14] == "Data przemieszczenia: " + dates.eventDate
    ensures r[19] == "Nr producenta: " + Show(Field(fd, "otherProducerNumber"))
    ensures r[20] == "Nr siedziby stada: " + Show(Field(fd, "otherHerdNumber"))
    ensures r[23] == "Data sporzadzenia: " + dates.createdDate
  {
  }

  const DeathTitle := "ZGLOSZENIE PADNIECIA ZWIERZECIA"
  const BirthTitle := "ZGLOSZENIE URODZENIA ZWIERZECIA"
  const TransferTitle := "ZGLOSZENIE PRZEMIESZCZENIA ZWIERZECIA"

  /** The three report kinds the printer knows. */
  datatype ReportKind = DeathKind | BirthKind | TransferKind

  function TitleOf(kind: ReportKind): string {
    match kind
    case DeathKind => DeathTitle
    case BirthKind => BirthTitle
    case TransferKind => TransferTitle
  }

  function LinesOf(kind: ReportKind, fd: FormData, farmName: Option<string>, dates: ReportDates): seq<string> {
    match kind
    case DeathKind => DeathReportLines(fd, farmName, dates)
    case BirthKind => BirthReportLines(fd, farmName, dates)
    case TransferKind => TransferReportLines(fd, farmName, dates)
  }

  /** `generateDeathReport`, `generateBirthReport`, `generateTransferReport`:
      the document text (its bytes are the UTF-8 encoding of it), with the
      kind's title and its report lines. */
  function GenerateReport(kind: ReportKind, fd: FormData, farmName: Option<string>, dates: ReportDates): (r: string)
    ensures Framed(r, Header, Escape(TitleOf(kind)), AfterTitle,
                   Join(ContentLines(LinesOf(kind, fd, farmName, dates)), '\n'), Trailer)
  {
    BuildPdf(TitleOf(kind), LinesOf(kind, fd, farmName, dates))
  }

  /** A report whose fields hold no line break draws each of its lines with
      one operator, in order, under the kind's (folded) title. */
  lemma GenerateReportReadsBack(kind: ReportKind, fd: FormData, farmName: Option<string>, dates: ReportDates, lines: seq<string>)
    requires lines == LinesOf(kind, fd, farmName, dates)
    requires forall i :: 0 <= i < |lines| ==> '\n' !in lines[i]
    ensures ReadsBack(GenerateReport(kind, fd, farmName, dates), TitleOf(kind), ContentLines(lines))
  {
    LinesOfNonEmpty(kind, fd, farmName, dates);
    BuildPdfReadsBack(TitleOf(kind), lines);
  }

  lemma LinesOfNonEmpty(kind: ReportKind, fd: FormData, farmName: Option<string>, dates: ReportDates)
    ensures |LinesOf(kind, fd, farmName, dates)| > 0
  {
  }
}
