/** The pure half of the conversation-report pipeline: the text normaliser,
    the default report and the total sanitiser of the model's JSON reply,
    the transcript and report renderings, the participant profile built
    from the lookup rows, and the reshaping of the German date string. */
module ConversationReport {
  import opened Wrappers
  import opened Text
  import opened Json

  /** A stored transcript row of `conversation_messages`. */
  datatype MessageRow = MessageRow(seqNo: int, sender: string, content: string)

  datatype ParticipantProfile =
    ParticipantProfile(personId: string, firstName: string, lastName: string, role: string, company: string)

  datatype Zieldefinition =
    Zieldefinition(urspruenglichesZiel: string, konkretisiertesZiel: string, neueZiele: string)

  /** The fixed-shape structured report. */
  datatype ReportPayload = ReportPayload(
    titel: string,
    teilnehmerName: string,
    rolleFunktion: string,
    unternehmen: string,
    gespraechsdatum: string,
    gespraechsstatus: string,
    gespraechsphase: string,
    zielstatus: string,
    ausgangslage: string,
    erkanntesHauptthema: string,
    zentraleErkenntnisse: string,
    zieldefinition: Zieldefinition,
    empfehlungenDesAvatars: string,
    entwicklungsimpuls: string,
    naechsterSinnvollerSchritt: string)

  const ReportTitle := "Gesprächsauswertung - Avatar-Coaching"
  const NotAvailable := "nicht vorhanden"
  const NotSpecified := "nicht konkretisiert"

  /** The value carries text: it is a string that is not blank. */
  predicate HasText(value: Option<Json>) {
    value.Some? && value.value.JStr? && !IsBlank(value.value.s)
  }

  /** `normalizeText(value, fallback)`: the trimmed string when `value` is a
      string with some non-space character, the fallback otherwise. */
  function NormalizeText(value: Option<Json>, fallback: string): (r: string)
    ensures HasText(value) ==> r == Trim(value.value.s) && r != [] && !IsSpace(r[0]) && !IsSpace(r[|r| - 1])
    ensures !HasText(value) ==> r == fallback
  {
    match value
    case Some(JStr(s)) => TrimSpec(s); Or(Trim(s), fallback)
    case _ => fallback
  }

  /** `[firstName, lastName].filter(Boolean).join(" ").trim()`. */
  function FullName(p: ParticipantProfile): (r: string)
    ensures r == [] <==> IsBlank(p.firstName) && IsBlank(p.lastName)
    ensures r != [] ==> !IsSpace(r[0]) && !IsSpace(r[|r| - 1])
  {
    var parts := if p.firstName != [] && p.lastName != [] then p.firstName + " " + p.lastName
                 else p.firstName + p.lastName;
    assert IsBlank(parts) <==> IsBlank(p.firstName) && IsBlank(p.lastName) by {
      if p.firstName != [] && p.lastName != [] {
        BlankConcat(p.firstName + " ", p.lastName);
        BlankConcat(p.firstName, " ");
      } else {
        BlankConcat(p.firstName, p.lastName);
      }
    }
    TrimSpec(parts);
    Trim(parts)
  }

  /** A string without white space at either end, as `trim()` leaves it. */
  predicate Trimmed(s: string) {
    s == [] || (!IsSpace(s[0]) && !IsSpace(s[|s| - 1]))
  }

  /** For names without surrounding white space, as the profile holds
      them, the full name is both names joined by one space, or the one
      that is given. */
  lemma FullNameJoins(p: ParticipantProfile)
    requires Trimmed(p.firstName) && Trimmed(p.lastName)
    ensures FullName(p) == (if p.firstName != "" && p.lastName != "" then p.firstName + " " + p.lastName
                            else p.firstName + p.lastName)
  {
    if p.firstName != "" && p.lastName != "" {
      var parts := p.firstName + " " + p.lastName;
      assert parts[0] == p.firstName[0];
      assert parts[|parts| - 1] == p.lastName[|p.lastName| - 1];
      TrimSpec(parts);
    } else {
      TrimSpec(p.firstName + p.lastName);
    }
  }

  /** "Max" and "Muster" are shown as "Max Muster". */
  lemma FullNameExample(personId: string, role: string, company: string)
    ensures FullName(ParticipantProfile(personId, "Max", "Muster", role, company)) == "Max Muster"
  {
    FullNameJoins(ParticipantProfile(personId, "Max", "Muster", role, company));
  }

  lemma BlankConcat(a: string, b: string)
    ensures IsBlank(a + b) <==> IsBlank(a) && IsBlank(b)
  {
    if IsBlank(a + b) {
      forall i | 0 <= i < |b| ensures IsSpace(b[i]) { assert b[i] == (a + b)[|a| + i]; }
      forall i | 0 <= i < |a| ensures IsSpace(a[i]) { assert a[i] == (a + b)[i]; }
    }
  }

  /** `buildDefaultReport`: the report used when the model's reply is unusable. */
  function BuildDefaultReport(profile: ParticipantProfile, conversationDate: string): (r: ReportPayload)
    ensures r.titel == ReportTitle && r.gespraechsdatum == conversationDate
    ensures r.teilnehmerName == Or(FullName(profile), NotAvailable)
    ensures r.rolleFunktion == Or(profile.role, NotAvailable)
    ensures r.unternehmen == Or(profile.company, NotAvailable)
  {
    ReportPayload(
      ReportTitle,
      Or(FullName(profile), NotAvailable),
      Or(profile.role, NotAvailable),
      Or(profile.company, NotAvailable),
      conversationDate,
      "beendet",
      NotSpecified,
      NotSpecified,
      NotSpecified,
      NotSpecified,
      NotSpecified,
      Zieldefinition(NotSpecified, NotSpecified, NotSpecified),
      NotAvailable,
      NotSpecified,
      NotSpecified)
  }

  /** Every string field of the report is non-empty. */
  predicate Complete(r: ReportPayload) {
    && r.titel != [] && r.teilnehmerName != [] && r.rolleFunktion != [] && r.unternehmen != []
    && r.gespraechsdatum != [] && r.gespraechsstatus != [] && r.gespraechsphase != []
    && r.zielstatus != [] && r.ausgangslage != [] && r.erkanntesHauptthema != []
    && r.zentraleErkenntnisse != [] && r.zieldefinition.urspruenglichesZiel != []
    && r.zieldefinition.konkretisiertesZiel != [] && r.zieldefinition.neueZiele != []
    && r.empfehlungenDesAvatars != [] && r.entwicklungsimpuls != [] && r.naechsterSinnvollerSchritt != []
  }

  /** A sanitised field is the reply's trimmed text when it has some, and
      the default report's field otherwise. */
  predicate FieldFrom(value: Option<Json>, default: string, field: string) {
    if HasText(value) then field == Trim(value.value.s) else field == default
  }

  /** The participant and date fields of `r` come from `input` or from `d`. */
  predicate HeaderFrom(input: Json, d: ReportPayload, r: ReportPayload) {
    && FieldFrom(Get(input, "titel"), d.titel, r.titel)
    && FieldFrom(Get(input, "teilnehmer_name"), d.teilnehmerName, r.teilnehmerName)
    && FieldFrom(Get(input, "rolle_funktion"), d.rolleFunktion, r.rolleFunktion)
    && FieldFrom(Get(input, "unternehmen"), d.unternehmen, r.unternehmen)
    && FieldFrom(Get(input, "gespraechsdatum"), d.gespraechsdatum, r.gespraechsdatum)
  }

  /** The status and analysis fields of `r` come from `input` or from `d`. */
  predicate AnalysisFrom(input: Json, d: ReportPayload, r: ReportPayload) {
    && FieldFrom(Get(input, "gespraechsstatus"), d.gespraechsstatus, r.gespraechsstatus)
    && FieldFrom(Get(input, "gespraechsphase"), d.gespraechsphase, r.gespraechsphase)
    && FieldFrom(Get(input, "zielstatus"), d.zielstatus, r.zielstatus)
    && FieldFrom(Get(input, "ausgangslage"), d.ausgangslage, r.ausgangslage)
    && FieldFrom(Get(input, "erkanntes_hauptthema"), d.erkanntesHauptthema, r.erkanntesHauptthema)
    && FieldFrom(Get(input, "zentrale_erkenntnisse"), d.zentraleErkenntnisse, r.zentraleErkenntnisse)
  }

  /** The three goal fields of `r` come from `input.zieldefinition` or from `d`. */
  predicate GoalsFrom(input: Json, d: ReportPayload, r: ReportPayload) {
    var nested := Get(input, "zieldefinition");
    && FieldFrom(GetOpt(nested, "urspruengliches_ziel"), d.zieldefinition.urspruenglichesZiel,
                 r.zieldefinition.urspruenglichesZiel)
    && FieldFrom(GetOpt(nested, "konkretisiertes_ziel"), d.zieldefinition.konkretisiertesZiel,
                 r.zieldefinition.konkretisiertesZiel)
    && FieldFrom(GetOpt(nested, "neue_ziele"), d.zieldefinition.neueZiele, r.zieldefinition.neueZiele)
  }

  /** The recommendation fields of `r` come from `input` or from `d`. */
  predicate ClosingFrom(input: Json, d: ReportPayload, r: ReportPayload) {
    && FieldFrom(Get(input, "empfehlungen_des_avatars"), d.empfehlungenDesAvatars, r.empfehlungenDesAvatars)
    && FieldFrom(Get(input, "entwicklungsimpuls"), d.entwicklungsimpuls, r.entwicklungsimpuls)
    && FieldFrom(Get(input, "naechster_sinnvoller_schritt"), d.naechsterSinnvollerSchritt,
                 r.naechsterSinnvollerSchritt)
  }

  /** Every field of `r` is taken from `input` or from the default report `d`. */
  predicate SanitisedFrom(input: Json, d: ReportPayload, r: ReportPayload) {
    HeaderFrom(input, d, r) && AnalysisFrom(input, d, r) && GoalsFrom(input, d, r) && ClosingFrom(input, d, r)
  }

  /** `sanitizeReportPayload`: total; a reply that is not an object (null,
      false, 0, "", a number, a string) yields exactly the default report;
      otherwise every field is the reply's trimmed text or the default
      report's field, and a missing or non-object `zieldefinition` yields
      "nicht konkretisiert" for its three fields. */
  function SanitizeReportPayload(input: Json, profile: ParticipantProfile, conversationDate: string)
    : (r: ReportPayload)
    ensures !(input.JObj? || input.JArr?) ==> r == BuildDefaultReport(profile, conversationDate)
    ensures (var z := Get(input, "zieldefinition"); z.None? || !z.value.JObj?) ==>
      r.zieldefinition == Zieldefinition(NotSpecified, NotSpecified, NotSpecified)
  {
    if !Truthy(Some(input)) || !(input.JObj? || input.JArr?) then BuildDefaultReport(profile, conversationDate)
    else
      var nestedField := Get(input, "zieldefinition");
      var nested := if Truthy(nestedField) then nestedField.value else JObj(map[]);
      var fullName := FullName(profile);
      ReportPayload(
        NormalizeText(Get(input, "titel"), ReportTitle),
        NormalizeText(Get(input, "teilnehmer_name"), Or(fullName, NotAvailable)),
        NormalizeText(Get(input, "rolle_funktion"), Or(profile.role, NotAvailable)),
        NormalizeText(Get(input, "unternehmen"), Or(profile.company, NotAvailable)),
        NormalizeText(Get(input, "gespraechsdatum"), conversationDate),
        NormalizeText(Get(input, "gespraechsstatus"), "beendet"),
        NormalizeText(Get(input, "gespraechsphase"), NotSpecified),
        NormalizeText(Get(input, "zielstatus"), NotSpecified),
        NormalizeText(Get(input, "ausgangslage"), NotSpecified),
        NormalizeText(Get(input, "erkanntes_hauptthema"), NotSpecified),
        NormalizeText(Get(input, "zentrale_erkenntnisse"), NotSpecified),
        Zieldefinition(
          NormalizeText(Get(nested, "urspruengliches_ziel"), NotSpecified),
          NormalizeText(Get(nested, "konkretisiertes_ziel"), NotSpecified),
          NormalizeText(Get(nested, "neue_ziele"), NotSpecified)),
        NormalizeText(Get(input, "empfehlungen_des_avatars"), NotAvailable),
        NormalizeText(Get(input, "entwicklungsimpuls"), NotSpecified),
        NormalizeText(Get(input, "naechster_sinnvoller_schritt"), NotSpecified))
  }

  /** Every sanitised field is the reply's trimmed text or, failing that,
      the default report's field: the sanitiser's fallbacks are exactly
      `buildDefaultReport`. */
  lemma SanitiseFallsBackToDefault(input: Json, profile: ParticipantProfile, conversationDate: string)
    ensures SanitisedFrom(input, BuildDefaultReport(profile, conversationDate),
                          SanitizeReportPayload(input, profile, conversationDate))
  {
    SanitisedHeader(input, profile, conversationDate);
    SanitisedAnalysis(input, profile, conversationDate);
    SanitisedGoals(input, profile, conversationDate);
    SanitisedClosing(input, profile, conversationDate);
  }

  lemma SanitisedHeader(input: Json, profile: ParticipantProfile, conversationDate: string)
    ensures HeaderFrom(input, BuildDefaultReport(profile, conversationDate),
                       SanitizeReportPayload(input, profile, conversationDate))
  {
    var d := BuildDefaultReport(profile, conversationDate);
    var r := SanitizeReportPayload(input, profile, conversationDate);
    if input.JObj? || input.JArr? {
      assert r.titel == NormalizeText(Get(input, "titel"), d.titel);
      assert r.teilnehmerName == NormalizeText(Get(input, "teilnehmer_name"), d.teilnehmerName);
      assert r.rolleFunktion == NormalizeText(Get(input, "rolle_funktion"), d.rolleFunktion);
      assert r.unternehmen == NormalizeText(Get(input, "unternehmen"), d.unternehmen);
      assert r.gespraechsdatum == NormalizeText(Get(input, "gespraechsdatum"), d.gespraechsdatum);
    }
  }

  lemma SanitisedAnalysis(input: Json, profile: ParticipantProfile, conversationDate: string)
    ensures AnalysisFrom(input, BuildDefaultReport(profile, conversationDate),
                         SanitizeReportPayload(input, profile, conversationDate))
  {
    var d := BuildDefaultReport(profile, conversationDate);
    var r := SanitizeReportPayload(input, profile, conversationDate);
    if input.JObj? || input.JArr? {
      assert r.gespraechsstatus == NormalizeText(Get(input, "gespraechsstatus"), d.gespraechsstatus);
      assert r.gespraechsphase == NormalizeText(Get(input, "gespraechsphase"), d.gespraechsphase);
      assert r.zielstatus == NormalizeText(Get(input, "zielstatus"), d.zielstatus);
      assert r.ausgangslage == NormalizeText(Get(input, "ausgangslage"), d.ausgangslage);
      assert r.erkanntesHauptthema == NormalizeText(Get(input, "erkanntes_hauptthema"), d.erkanntesHauptthema);
      assert r.zentraleErkenntnisse == NormalizeText(Get(input, "zentrale_erkenntnisse"), d.zentraleErkenntnisse);
    }
  }

  lemma SanitisedGoals(input: Json, profile: ParticipantProfile, conversationDate: string)
    ensures GoalsFrom(input, BuildDefaultReport(profile, conversationDate),
                      SanitizeReportPayload(input, profile, conversationDate))
  {
    var r := SanitizeReportPayload(input, profile, conversationDate);
    var z := Get(input, "zieldefinition");
    if input.JObj? || input.JArr? {
      var inner := if Truthy(z) then z.value else JObj(map[]);
      assert r.zieldefinition == Zieldefinition(
        NormalizeText(Get(inner, "urspruengliches_ziel"), NotSpecified),
        NormalizeText(Get(inner, "konkretisiertes_ziel"), NotSpecified),
        NormalizeText(Get(inner, "neue_ziele"), NotSpecified));
      NestedFieldFrom(z, "urspruengliches_ziel");
      NestedFieldFrom(z, "konkretisiertes_ziel");
      NestedFieldFrom(z, "neue_ziele");
    }
  }

  /** Reading a key of `zieldefinition || {}` agrees with reading it from the
      possibly missing `zieldefinition` itself. */
  lemma NestedFieldFrom(nested: Option<Json>, key: string)
    ensures var inner := if Truthy(nested) then nested.value else JObj(map[]);
      FieldFrom(GetOpt(nested, key), NotSpecified, NormalizeText(Get(inner, key), NotSpecified))
  {
  }

  lemma SanitisedClosing(input: Json, profile: ParticipantProfile, conversationDate: string)
    ensures ClosingFrom(input, BuildDefaultReport(profile, conversationDate),
                        SanitizeReportPayload(input, profile, conversationDate))
  {
    var d := BuildDefaultReport(profile, conversationDate);
    var r := SanitizeReportPayload(input, profile, conversationDate);
    if input.JObj? || input.JArr? {
      assert r.empfehlungenDesAvatars == NormalizeText(Get(input, "empfehlungen_des_avatars"), d.empfehlungenDesAvatars);
      assert r.entwicklungsimpuls == NormalizeText(Get(input, "entwicklungsimpuls"), d.entwicklungsimpuls);
      assert r.naechsterSinnvollerSchritt == NormalizeText(Get(input, "naechster_sinnvoller_schritt"), d.naechsterSinnvollerSchritt);
    }
  }

  /** With a non-empty conversation date, every field of the sanitised report is non-empty. */
  lemma SanitisedIsComplete(input: Json, profile: ParticipantProfile, conversationDate: string)
    requires conversationDate != []
    ensures Complete(SanitizeReportPayload(input, profile, conversationDate))
  {
  }

  /** The reply `{}` and the reply `[]` both sanitise to the default report. */
  lemma EmptyReplyIsDefault(profile: ParticipantProfile, conversationDate: string)
    ensures SanitizeReportPayload(JObj(map[]), profile, conversationDate)
         == BuildDefaultReport(profile, conversationDate)
    ensures SanitizeReportPayload(JArr([]), profile, conversationDate)
         == BuildDefaultReport(profile, conversationDate)
  {
  }

  function Speaker(sender: string): (r: string)
    ensures r == "Avatar" <==> sender == "avatar"
    ensures r == "Teilnehmer" <==> sender != "avatar"
  {
    if sender == "avatar" then "Avatar" else "Teilnehmer"
  }

  function TranscriptLine(m: MessageRow): string
  {
    Speaker(m.sender) + ": " + m.content
  }

  function TranscriptLines(messages: seq<MessageRow>): (lines: seq<string>)
    ensures |lines| == |messages|
    ensures forall i :: 0 <= i < |messages| ==> lines[i] == TranscriptLine(messages[i])
  {
    seq(|messages|, i requires 0 <= i < |messages| => TranscriptLine(messages[i]))
  }

  /** `transcriptToText`: one `Speaker: content` line per message, joined by newlines. */
  function TranscriptToText(messages: seq<MessageRow>): string
  {
    Join(TranscriptLines(messages), "\n")
  }

  /** When no message content holds a newline, the transcript text splits
      back into exactly one line per message, in input order, each starting
      with "Avatar: " for avatar messages and "Teilnehmer: " for all others. */
  lemma TranscriptLinesRecovered(messages: seq<MessageRow>)
    requires |messages| >= 1
    requires forall i :: 0 <= i < |messages| ==> '\n' !in messages[i].content
    ensures var lines := Split(TranscriptToText(messages), '\n');
      && |lines| == |messages|
      && forall i :: 0 <= i < |messages| ==>
           lines[i] == Speaker(messages[i].sender) + ": " + messages[i].content
  {
    var lines := TranscriptLines(messages);
    forall k | 0 <= k < |lines| ensures '\n' !in lines[k] {
      var sp := Speaker(messages[k].sender);
      assert lines[k] == sp + ": " + messages[k].content;
      assert '\n' !in sp + ": ";
    }
    SplitJoin(lines, '\n');
  }

  /** The 33 lines of `buildReportText`, in their fixed order, as four
      blocks: participant header, conversation analysis, goals, closing. */
  function ReportLines(p: ReportPayload): seq<string>
  {
    HeaderLines(p) + AnalysisLines(p) + GoalLines(p) + ClosingLines(p)
  }

  function HeaderLines(p: ReportPayload): seq<string>
  {
    [ p.titel,
      "",
      "Teilnehmer: " + p.teilnehmerName,
      "Rolle/Funktion: " + p.rolleFunktion,
      "Unternehmen: " + p.unternehmen,
      "Gespraechsdatum: " + p.gespraechsdatum,
      "" ]
  }

  function AnalysisLines(p: ReportPayload): seq<string>
  {
    [ "Gespraechsstatus: " + p.gespraechsstatus,
      "Gespraechsphase: " + p.gespraechsphase,
      "Zielstatus: " + p.zielstatus,
      "",
      "Ausgangslage:",
      p.ausgangslage,
      "",
      "Erkanntes Hauptthema:",
      p.erkanntesHauptthema,
      "",
      "Zentrale Erkenntnisse des Teilnehmers:",
      p.zentraleErkenntnisse,
      "" ]
  }

  function GoalLines(p: ReportPayload): seq<string>
  {
    [ "Zieldefinition:",
      "- Urspruengliches Ziel: " + p.zieldefinition.urspruenglichesZiel,
      "- Konkretisiertes Ziel: " + p.zieldefinition.konkretisiertesZiel,
      "- Neue Ziele aus dem Gespraech: " + p.zieldefinition.neueZiele,
      "" ]
  }

  function ClosingLines(p: ReportPayload): seq<string>
  {
    [ "Empfehlungen des Avatars:",
      p.empfehlungenDesAvatars,
      "",
      "Entwicklungsimpuls:",
      p.entwicklungsimpuls,
      "",
      "Naechster sinnvoller Schritt:",
      p.naechsterSinnvollerSchritt ]
  }

  /** `buildReportText`. */
  function BuildReportText(p: ReportPayload): string
  {
    Join(ReportLines(p), "\n")
  }

  predicate NoNewline(p: ReportPayload) {
    && '\n' !in p.titel && '\n' !in p.teilnehmerName && '\n' !in p.rolleFunktion
    && '\n' !in p.unternehmen && '\n' !in p.gespraechsdatum && '\n' !in p.gespraechsstatus
    && '\n' !in p.gespraechsphase && '\n' !in p.zielstatus && '\n' !in p.ausgangslage
    && '\n' !in p.erkanntesHauptthema && '\n' !in p.zentraleErkenntnisse
    && '\n' !in p.zieldefinition.urspruenglichesZiel && '\n' !in p.zieldefinition.konkretisiertesZiel
    && '\n' !in p.zieldefinition.neueZiele && '\n' !in p.empfehlungenDesAvatars
    && '\n' !in p.entwicklungsimpuls && '\n' !in p.naechsterSinnvollerSchritt
  }

  /** No line of `lines` holds a newline. */
  predicate LinesFree(lines: seq<string>) {
    forall k :: 0 <= k < |lines| ==> '\n' !in lines[k]
  }

  /** When no field holds a newline, the report text splits back into
      exactly its 33 lines, the title first and the participant second. */
  lemma ReportTextLayout(p: ReportPayload)
    requires NoNewline(p)
    ensures var lines := Split(BuildReportText(p), '\n');
      && |lines| == 33
      && lines == ReportLines(p)
      && lines[0] == p.titel
      && lines[2] == "Teilnehmer: " + p.teilnehmerName
  {
    HeaderLinesFree(p);
    AnalysisLinesFree(p);
    GoalLinesFree(p);
    ClosingLinesFree(p);
    var a, b, c, d := HeaderLines(p), AnalysisLines(p), GoalLines(p), ClosingLines(p);
    LinesFreeConcat(a, b);
    LinesFreeConcat(a + b, c);
    LinesFreeConcat(a + b + c, d);
    SplitJoin(ReportLines(p), '\n');
  }

  lemma LinesFreeConcat(xs: seq<string>, ys: seq<string>)
    requires LinesFree(xs) && LinesFree(ys)
    ensures LinesFree(xs + ys)
  {
    forall k | 0 <= k < |xs + ys| ensures '\n' !in (xs + ys)[k] {
      if k >= |xs| { assert (xs + ys)[k] == ys[k - |xs|]; }
    }
  }

  predicate NewlineFree(s: string) {
    forall i :: 0 <= i < |s| ==> s[i] != '\n'
  }

  lemma HeaderLinesFree(p: ReportPayload)
    requires NoNewline(p)
    ensures LinesFree(HeaderLines(p))
  {
    assert NewlineFree("Teilnehmer: ") && NewlineFree("Rolle/Funktion: ");
    assert NewlineFree("Unternehmen: ") && NewlineFree("Gespraechsdatum: ");
  }

  lemma AnalysisLinesFree(p: ReportPayload)
    requires NoNewline(p)
    ensures LinesFree(AnalysisLines(p))
  {
    assert NewlineFree("Gespraechsstatus: ") && NewlineFree("Gespraechsphase: ");
    assert NewlineFree("Zielstatus: ") && NewlineFree("Ausgangslage:");
    assert NewlineFree("Erkanntes Hauptthema:") && NewlineFree("Zentrale Erkenntnisse des Teilnehmers:");
  }

  lemma GoalLinesFree(p: ReportPayload)
    requires NoNewline(p)
    ensures LinesFree(GoalLines(p))
  {
    assert NewlineFree("Zieldefinition:") && NewlineFree("- Urspruengliches Ziel: ");
    assert NewlineFree("- Konkretisiertes Ziel: ") && NewlineFree("- Neue Ziele aus dem Gespraech: ");
  }

  lemma ClosingLinesFree(p: ReportPayload)
    requires NoNewline(p)
    ensures LinesFree(ClosingLines(p))
  {
    assert NewlineFree("Empfehlungen des Avatars:") && NewlineFree("Entwicklungsimpuls:");
    assert NewlineFree("Naechster sinnvoller Schritt:");
  }

  /** A reply that sets only the title keeps that title, trimmed, and takes
      the participant's name and role from the profile, or "nicht
      vorhanden" when the profile has none. */
  lemma TitleOnlyReply(title: string, profile: ParticipantProfile, conversationDate: string)
    requires !IsBlank(title)
    ensures var payload := SanitizeReportPayload(JObj(map["titel" := JStr(title)]), profile, conversationDate);
      && payload.titel == Trim(title)
      && payload.teilnehmerName == Or(FullName(profile), NotAvailable)
      && (profile.role == "" ==> payload.rolleFunktion == NotAvailable)
  {
    var reply := JObj(map["titel" := JStr(title)]);
    SanitisedHeader(reply, profile, conversationDate);
    assert Get(reply, "titel") == Some(JStr(title));
    assert Get(reply, "teilnehmer_name") == None;
    assert Get(reply, "rolle_funktion") == None;
  }

  function Reverse<T>(s: seq<T>): (r: seq<T>)
    ensures |r| == |s|
    ensures forall i :: 0 <= i < |s| ==> r[i] == s[|s| - 1 - i]
  {
    if s == [] then [] else Reverse(s[1..]) + [s[0]]
  }

  /** `conversationDate.split(".").reverse().join("-")`. */
  function ReshapeDate(date: string): string
  {
    Join(Reverse(Split(date, '.')), "-")
  }

  /** A German date "D.M.YYYY" (day and month as `toLocaleDateString`
      writes them, without zero padding) becomes "YYYY-M-D": the three
      parts in reverse order, joined by dashes. */
  lemma ReshapeGermanDate(day: string, month: string, year: string)
    requires '.' !in day && '.' !in month && '.' !in year
    ensures ReshapeDate(day + "." + month + "." + year) == year + "-" + month + "-" + day
  {
    var xs := [day, month, year];
    JoinThree(day, month, year, ".");
    SplitJoin(xs, '.');
    assert Reverse(xs) == [year, month, day];
    JoinThree(year, month, day, "-");
  }

  lemma JoinThree(a: string, b: string, c: string, sep: string)
    ensures Join([a, b, c], sep) == a + sep + b + sep + c
  {
    assert [a, b, c][..2] == [a, b];
    assert [a, b][..1] == [a];
    assert Join([a, b], sep) == a + sep + b;
  }

  /** A date string without dots is left as it is. */
  lemma ReshapeWithoutDots(date: string)
    requires '.' !in date
    ensures ReshapeDate(date) == date
  {
  }

  /** `Array.isArray(companies) ? companies[0] : companies`, read from the
      employment row; an empty array gives nothing. */
  function CompanyOf(employment: Option<Json>): Option<Json>
  {
    var companies := GetOpt(employment, "companies");
    if companies.Some? && companies.value.JArr? then
      (if companies.value.items != [] then Some(companies.value.items[0]) else None)
    else companies
  }

  /** `resolveParticipantProfile`: the person and latest-employment lookups
      (`None` when the query failed or found nothing) fill the profile; a
      `companies` relation may come as an object or as an array whose first
      element is used. It never fails; a field without text stays "", and
      every field is trimmed. */
  function ResolveParticipantProfile(personId: string, person: Option<Json>, employment: Option<Json>)
    : (r: ParticipantProfile)
    ensures r.personId == personId
    ensures Truthy(person) ==> r.firstName == NormalizeText(GetOpt(person, "first_name"), "")
    ensures Truthy(person) ==> r.lastName == NormalizeText(GetOpt(person, "last_name"), "")
    ensures !Truthy(person) ==> r.firstName == "" && r.lastName == ""
    ensures Truthy(employment) ==> r.role == NormalizeText(GetOpt(employment, "function_title"), "")
    ensures Truthy(employment) && Truthy(CompanyOf(employment)) ==>
      r.company == NormalizeText(GetOpt(CompanyOf(employment), "name"), "")
    ensures !Truthy(employment) || !Truthy(CompanyOf(employment)) ==> r.company == ""
    ensures !Truthy(employment) ==> r.role == ""
    ensures Trimmed(r.firstName) && Trimmed(r.lastName) && Trimmed(r.role) && Trimmed(r.company)
  {
    var firstName := if Truthy(person) then NormalizeText(GetOpt(person, "first_name"), "") else "";
    var lastName := if Truthy(person) then NormalizeText(GetOpt(person, "last_name"), "") else "";
    var role := if Truthy(employment) then NormalizeText(GetOpt(employment, "function_title"), "") else "";
    var company := CompanyOf(employment);
    var companyName := if Truthy(employment) && Truthy(company) then NormalizeText(GetOpt(company, "name"), "") else "";
    ParticipantProfile(personId, firstName, lastName, role, companyName)
  }

  /** The report names the participant as stored: first and last name of
      the person row joined by one space, or the one that has text. */
  lemma ResolvedFullName(personId: string, person: Option<Json>, employment: Option<Json>)
    ensures var p := ResolveParticipantProfile(personId, person, employment);
      FullName(p) == (if p.firstName != "" && p.lastName != "" then p.firstName + " " + p.lastName
                      else p.firstName + p.lastName)
  {
    FullNameJoins(ResolveParticipantProfile(personId, person, employment));
  }
}
