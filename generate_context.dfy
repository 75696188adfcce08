/** The context generation endpoint. For a participant id it looks the
    participant up in the database (first through a joined query over
    employments, persons and companies, then table by table), reads the
    active knowledge topic, builds the coaching prompt and the opening line,
    and asks the avatar service to create a context from them. The database
    queries, the clock and the avatar service are parameters. */
module GenerateContext {
  import opened Wrappers
  import opened Text
  import opened Json

  // ----------------------------------------------------------------------
  // Configuration

  /** `AVATAR_ID` and `VOICE_ID` of the configuration file. */
  const DefaultAvatarId: string := "073b60a9-89a8-45aa-8902-c358f64d2852"
  const DefaultVoiceId: string := "864a26b8-bfba-4435-9cc5-1dd593de5ca7"

  /** The topic used when no knowledge topic code is configured. */
  const DefaultTopicCode: string := "avatar_benefits"

  /** The configuration the endpoint reads: the role profile `AVATAR_ROLE`,
      the optional `KB_TOPIC_CODE`, and the fixed conversation guidelines
      that open every prompt. */
  datatype Config = Config(role: int, kbTopicCode: Option<string>, guidelines: string)

  predicate IsRole(r: int) {
    1 <= r <= 4
  }

  /** `getAvatarRoleConfig`: the configured role when it is one of the four
      profiles, otherwise profile 2. */
  function RoleConfig(configured: int): (r: int)
    ensures IsRole(r)
    ensures r == configured <==> IsRole(configured)
    ensures !IsRole(configured) ==> r == 2
  {
    if configured in {1, 2, 3, 4} then configured else 2
  }

  /** `getRoleInstructions`: the profile's heading "ROLLENPROFIL n:" on a
      line of its own, then its rules; no text for any other value. */
  function RoleInstructions(role: int): (r: string)
    ensures IsRole(role) ==> |r| >= 16 && r[..16] == "ROLLENPROFIL " + [Digit(role)] + ":\n"
    ensures r == "" <==> !IsRole(role)
  {
    if IsRole(role) then "ROLLENPROFIL " + [Digit(role)] + ":\n" + RoleRules(role) else ""
  }

  /** The rules of each profile, below its heading. */
  function RoleRules(role: int): string
  {
    match role
    case 1 =>
      "- Du bist stark zielorientiert.\n"
      + "- Du bist sehr strukturiert.\n"
      + "- Du führst dominant, klar und konsequent.\n"
      + "- Du bleibst in Aussagen fest und konsistent."
    case 2 =>
      "- Du bist unterstützend und wertschätzend.\n"
      + "- Du fokussierst Wissenstransfer.\n"
      + "- Du stellst regelmäßig Fragen zu den definierten Zielen."
    case 3 =>
      "- Du bist ein professioneller Coach für Führung und Vertrieb.\n"
      + "- Du trittst ruhig, klar, wertschätzend und strukturiert auf.\n"
      + "- Du führst konsequent durch den Prozess.\n"
      + "- Du bist weder Kumpel noch Entertainer, sondern ein fokussierter Coach.\n"
      + "\n"
      + "DEIN GRUNDVERHALTEN:\n"
      + "- Du stellst offene Fragen.\n"
      + "- Du lobst konsequent den Teilnehmer.\n"
      + "\n"
      + "WAS DU NICHT TUST:\n"
      + "- Keine neuen Themen einbringen.\n"
      + "- Keine geschlossenen Fragen.\n"
      + "\n"
      + "Start des Coachings (Pflichtabfolge):\n"
      + "1. Begrüße den Teilnehmer kurz und neutral mit Vornamen („Guten Tag.“).\n"
      + "\n"
      + "Ton & Haltung:\n"
      + "- Klar.\n"
      + "- Wertschätzend.\n"
      + "- Ruhig.\n"
      + "- Steuernd.\n"
      + "\n"
      + "DEINE AUFGABE\n"
      + "- Du fokussierst reinen Wissenstransfer.\n"
      + "- Du stellst nur wenige Fragen.\n"
      + "- Du hältst die Dialogstruktur bewusst minimal."
    case 4 =>
      "- Du motivierst stark und aktivierend.\n"
      + "- Du gibst ergänzend Wissenstransfer.\n"
      + "- Du stellst in moderater Häufigkeit Fragen im Gespräch."
    case _ => ""
  }

  // ----------------------------------------------------------------------
  // Reading fields of database rows

  /** A property value `getStringField` accepts: present, not null, and not
      blank once converted with `String()`. */
  predicate Usable(v: Option<Json>) {
    v.Some? && !v.value.JNull? && Trim(ToJsString(v.value)) != ""
  }

  /** The value `getStringField(row, aliases)` returns. */
  function StringField(row: Json, aliases: seq<string>): string
  {
    if aliases == [] then ""
    else if Usable(Get(row, aliases[0])) then Trim(ToJsString(Get(row, aliases[0]).value))
    else StringField(row, aliases[1..])
  }

  /** `getStringField`: the aliases are tried in order. */
  method GetStringField(row: Json, aliases: seq<string>) returns (r: string)
    ensures r == StringField(row, aliases)
  {
    var i := 0;
    while i < |aliases|
      invariant 0 <= i <= |aliases|
      invariant StringField(row, aliases) == StringField(row, aliases[i..])
    {
      var value := Get(row, aliases[i]);
      if value.Some? && !value.value.JNull? && Trim(ToJsString(value.value)) != "" {
        return Trim(ToJsString(value.value));
      }
      i := i + 1;
    }
    return "";
  }

  /** The field is the trimmed text of the first usable alias, and it is
      empty exactly when no alias is usable. */
  lemma {:induction false} StringFieldFirstUsable(row: Json, aliases: seq<string>)
    ensures StringField(row, aliases) == "" <==> forall k | 0 <= k < |aliases| :: !Usable(Get(row, aliases[k]))
    ensures StringField(row, aliases) != "" ==>
      exists k | 0 <= k < |aliases| ::
        && Usable(Get(row, aliases[k]))
        && (forall j | 0 <= j < k :: !Usable(Get(row, aliases[j])))
        && StringField(row, aliases) == Trim(ToJsString(Get(row, aliases[k]).value))
  {
    if aliases != [] {
      StringFieldFirstUsable(row, aliases[1..]);
      if !Usable(Get(row, aliases[0])) && StringField(row, aliases) != "" {
        var k :| 0 <= k < |aliases[1..]| && Usable(Get(row, aliases[1..][k]))
          && (forall j | 0 <= j < k :: !Usable(Get(row, aliases[1..][j])))
          && StringField(row, aliases[1..]) == Trim(ToJsString(Get(row, aliases[1..][k]).value));
        assert forall j | 0 <= j < k + 1 :: !Usable(Get(row, aliases[j])) by {
          forall j | 0 < j < k + 1 ensures !Usable(Get(row, aliases[j])) {
            assert aliases[j] == aliases[1..][j - 1];
          }
        }
        assert aliases[k + 1] == aliases[1..][k];
      }
      if StringField(row, aliases) == "" {
        forall k | 0 <= k < |aliases| ensures !Usable(Get(row, aliases[k])) {
          if k > 0 { assert aliases[k] == aliases[1..][k - 1]; }
        }
      }
    }
  }

  /** A field never carries surrounding white space. */
  lemma {:induction false} StringFieldIsTrimmed(row: Json, aliases: seq<string>)
    ensures Trim(StringField(row, aliases)) == StringField(row, aliases)
  {
    if aliases == [] {
      TrimSpec("");
    } else if Usable(Get(row, aliases[0])) {
      TrimIdempotent(ToJsString(Get(row, aliases[0]).value));
    } else {
      StringFieldIsTrimmed(row, aliases[1..]);
    }
  }

  /** `x || {}` for a row that may be missing. */
  function OrEmpty(v: Option<Json>): Json
  {
    if Truthy(v) then v.value else JObj(map[])
  }

  /** `Array.isArray(rel) ? rel[0] : rel` for an embedded relation. */
  function FirstIfArray(rel: Option<Json>): Option<Json>
  {
    if rel.Some? && rel.value.JArr? then
      (if |rel.value.items| > 0 then Some(rel.value.items[0]) else None)
    else rel
  }

  // ----------------------------------------------------------------------
  // The database

  /** The outcome of one `maybeSingle` query: an error, or the row found
      (`None` when there is none). */
  datatype Lookup = Failed | Found(data: Option<Json>)

  /** `!error && data`. */
  predicate Hit(l: Lookup) {
    l.Found? && Truthy(l.data)
  }

  /** A value `person_no` is compared with: the text of the id, or its number. */
  datatype IdVariant = IdText(s: string) | IdNumber(n: nat)

  /** The queries the endpoint issues, each as the row it yields:
      `joined` the newest employment, with person and company embedded, of
      the person with a given `person_no`; `persons` the person with a
      given `person_no`; `employments` the newest employment of a person id;
      `companies` the company with an id; `topics` the active knowledge topic
      with a code. */
  datatype Db = Db(
    joined: IdVariant -> Lookup,
    persons: IdVariant -> Lookup,
    employments: string -> Lookup,
    companies: string -> Lookup,
    topics: string -> Lookup)

  // ----------------------------------------------------------------------
  // The knowledge topic

  datatype KnowledgeTopic = KnowledgeTopic(code: string, name: string, description: string)

  /** `toLowerCase` on the ASCII letters. */
  function LowerChar(c: char): char
  {
    if 'A' <= c <= 'Z' then (c as int + 32) as char else c
  }

  function LowerCase(s: string): (r: string)
    ensures |r| == |s|
  {
    if s == [] then [] else [LowerChar(s[0])] + LowerCase(s[1..])
  }

  /** `code.trim().toLowerCase()`. */
  function NormalizeCode(code: string): string
  {
    LowerCase(Trim(code))
  }

  lemma {:induction false} LowerCaseAt(s: string, i: nat)
    requires i < |s|
    ensures LowerCase(s)[i] == LowerChar(s[i])
  {
    if i > 0 {
      LowerCaseAt(s[1..], i - 1);
    }
  }

  lemma {:induction false} LowerCaseIdempotent(s: string)
    ensures LowerCase(LowerCase(s)) == LowerCase(s)
  {
    if s != [] {
      LowerCaseIdempotent(s[1..]);
      assert LowerCase(s)[1..] == LowerCase(s[1..]);
    }
  }

  /** Normalising a code twice is normalising it once, so the topic is
      looked up with exactly the code the endpoint reports. */
  lemma NormalizeCodeIdempotent(code: string)
    ensures NormalizeCode(NormalizeCode(code)) == NormalizeCode(code)
  {
    var t := Trim(code);
    var l := LowerCase(t);
    TrimSpec(code);
    if l != [] {
      LowerCaseAt(t, 0);
      LowerCaseAt(t, |t| - 1);
    }
    TrimSpec(l);
    LowerCaseIdempotent(t);
  }

  /** `fetchKnowledgeTopicData`. */
  function TopicData(topicCode: string, topics: string -> Lookup): Option<KnowledgeTopic>
  {
    var code := NormalizeCode(topicCode);
    if code == "" then None
    else
      var l := topics(code);
      if !Hit(l) then None
      else
        var row := l.data.value;
        Some(KnowledgeTopic(Or(StringField(row, ["code"]), code),
                            StringField(row, ["name"]),
                            StringField(row, ["description"])))
  }

  /** A topic is returned exactly when the normalised code is not empty and
      its query finds a row; only that one query matters, and the topic's
      code falls back to the normalised code, so it is never empty. */
  lemma TopicDataSpec(topicCode: string, topics: string -> Lookup, other: string -> Lookup)
    ensures var code := NormalizeCode(topicCode);
      TopicData(topicCode, topics).Some? <==> code != "" && Hit(topics(code))
    ensures var code := NormalizeCode(topicCode);
      TopicData(topicCode, topics).Some? ==>
        var t := TopicData(topicCode, topics).value;
        && t.code != ""
        && (t.code == code || t.code == StringField(topics(code).data.value, ["code"]))
    ensures var code := NormalizeCode(topicCode);
      (code == "" || topics(code) == other(code)) ==> TopicData(topicCode, topics) == TopicData(topicCode, other)
  {
  }

  // ----------------------------------------------------------------------
  // The participant

  datatype ParticipantData = ParticipantData(
    personId: string, personalId: string, firstName: string, lastName: string,
    company: string, position: string, validFrom: string, sourceTable: string)

  const JoinSource: string := "join: employments/persons/companies"
  const FallbackSource: string := "persons/employments/companies"

  /** `Number(id)` when it is finite, for ids made of decimal digits. */
  function NumericValue(s: string): Option<nat>
  {
    if s != "" && IsDigits(s) then Some(DecimalValue(s)) else None
  }

  /** The values `person_no` is compared with, in order. */
  function IdVariants(trimmed: string): (r: seq<IdVariant>)
    ensures 1 <= |r| <= 2 && r[0] == IdText(trimmed)
    ensures |r| == 2 <==> trimmed != "" && IsDigits(trimmed)
  {
    var n := NumericValue(trimmed);
    if n.Some? then [IdText(trimmed), IdNumber(n.value)] else [IdText(trimmed)]
  }

  /** The participant read from a row of the joined query. */
  function JoinedParticipant(row: Json, trimmed: string): ParticipantData
  {
    var person := OrEmpty(FirstIfArray(Get(row, "persons")));
    var company := OrEmpty(FirstIfArray(Get(row, "companies")));
    ParticipantData(
      StringField(person, ["id"]),
      Or(StringField(person, ["person_no"]), trimmed),
      StringField(person, ["first_name"]),
      StringField(person, ["last_name"]),
      StringField(company, ["name"]),
      StringField(row, ["function_title"]),
      StringField(row, ["valid_from"]),
      JoinSource)
  }

  /** The primary path: the first variant whose joined query finds a row. */
  function JoinedLookup(db: Db, variants: seq<IdVariant>, trimmed: string): (r: Option<ParticipantData>)
    ensures r.Some? ==> r.value.sourceTable == JoinSource && (r.value.personalId != "" || trimmed == "")
  {
    if variants == [] then None
    else if Hit(db.joined(variants[0])) then Some(JoinedParticipant(db.joined(variants[0]).data.value, trimmed))
    else JoinedLookup(db, variants[1..], trimmed)
  }

  /** The first variant whose person query finds a row; failed queries are skipped. */
  function FirstPerson(db: Db, variants: seq<IdVariant>): Option<Json>
  {
    if variants == [] then None
    else if Hit(db.persons(variants[0])) then Some(db.persons(variants[0]).data.value)
    else FirstPerson(db, variants[1..])
  }

  /** The company's name, looked up only for a non-empty company id; a failed
      lookup leaves it empty. */
  function CompanyName(db: Db, companyId: string): string
  {
    if companyId == "" then ""
    else
      var l := db.companies(companyId);
      if Hit(l) then StringField(l.data.value, ["name"]) else ""
  }

  /** The fallback path from the person row on: no database id means no
      participant; a failed employment query counts as no employment. */
  function FallbackParticipant(db: Db, personRow: Json, trimmed: string): Option<ParticipantData>
  {
    var personDbId := StringField(personRow, ["id"]);
    if personDbId == "" then None
    else
      var e := db.employments(personDbId);
      var employment := if e.Found? then OrEmpty(e.data) else JObj(map[]);
      Some(ParticipantData(
        personDbId,
        Or(StringField(personRow, ["person_no"]), trimmed),
        StringField(personRow, ["first_name"]),
        StringField(personRow, ["last_name"]),
        CompanyName(db, StringField(employment, ["company_id"])),
        StringField(employment, ["function_title"]),
        StringField(employment, ["valid_from"]),
        FallbackSource))
  }

  /** `fetchParticipantData`. */
  function ParticipantLookup(db: Db, participantId: string): Option<ParticipantData>
  {
    var trimmed := Trim(participantId);
    var variants := IdVariants(trimmed);
    var joined := JoinedLookup(db, variants, trimmed);
    if joined.Some? then joined
    else
      match FirstPerson(db, variants)
      case None => None
      case Some(row) => FallbackParticipant(db, row, trimmed)
  }

  /** `fetchParticipantData`, query by query. */
  method FetchParticipantData(db: Db, participantId: string) returns (p: Option<ParticipantData>)
    ensures p == ParticipantLookup(db, participantId)
  {
    var trimmed := Trim(participantId);
    var variants := IdVariants(trimmed);
    var i := 0;
    while i < |variants|
      invariant 0 <= i <= |variants|
      invariant JoinedLookup(db, variants, trimmed) == JoinedLookup(db, variants[i..], trimmed)
    {
      var l := db.joined(variants[i]);
      if l.Found? && Truthy(l.data) {
        return Some(JoinedParticipant(l.data.value, trimmed));
      }
      i := i + 1;
    }
    var personRow: Option<Json> := None;
    i := 0;
    while i < |variants|
      invariant 0 <= i <= |variants|
      invariant FirstPerson(db, variants) == FirstPerson(db, variants[i..])
    {
      var l := db.persons(variants[i]);
      if l.Failed? {
        i := i + 1;
        continue;
      }
      if Truthy(l.data) {
        personRow := l.data;
        break;
      }
      i := i + 1;
    }
    if personRow.None? {
      return None;
    }
    var personDbId := GetStringField(personRow.value, ["id"]);
    if personDbId == "" {
      return None;
    }
    var e := db.employments(personDbId);
    var employment := if e.Found? then OrEmpty(e.data) else JObj(map[]);
    var companyId := GetStringField(employment, ["company_id"]);
    var companyName := "";
    if companyId != "" {
      var c := db.companies(companyId);
      if c.Found? && Truthy(c.data) {
        companyName := GetStringField(c.data.value, ["name"]);
      }
    }
    var personalId := GetStringField(personRow.value, ["person_no"]);
    var firstName := GetStringField(personRow.value, ["first_name"]);
    var lastName := GetStringField(personRow.value, ["last_name"]);
    var position := GetStringField(employment, ["function_title"]);
    var validFrom := GetStringField(employment, ["valid_from"]);
    p := Some(ParticipantData(personDbId, Or(personalId, trimmed), firstName, lastName,
                              companyName, position, validFrom, FallbackSource));
  }

  /** The joined query answers for the first variant that finds a row, and
      for none exactly when no variant finds one. */
  lemma {:induction false} JoinedLookupFirstHit(db: Db, variants: seq<IdVariant>, trimmed: string)
    ensures JoinedLookup(db, variants, trimmed).None? <==> forall k | 0 <= k < |variants| :: !Hit(db.joined(variants[k]))
    ensures forall k | 0 <= k < |variants| ::
      (Hit(db.joined(variants[k])) && forall j | 0 <= j < k :: !Hit(db.joined(variants[j]))) ==>
        JoinedLookup(db, variants, trimmed) == Some(JoinedParticipant(db.joined(variants[k]).data.value, trimmed))
  {
    if variants != [] {
      JoinedLookupFirstHit(db, variants[1..], trimmed);
      forall k | 0 < k < |variants| ensures variants[k] == variants[1..][k - 1] {
      }
    }
  }

  /** The person lookup skips failed queries and takes the first row found;
      it finds none exactly when no variant's query finds one. */
  lemma {:induction false} FirstPersonFirstHit(db: Db, variants: seq<IdVariant>)
    ensures FirstPerson(db, variants).None? <==> forall k | 0 <= k < |variants| :: !Hit(db.persons(variants[k]))
    ensures forall k | 0 <= k < |variants| ::
      (Hit(db.persons(variants[k])) && forall j | 0 <= j < k :: !Hit(db.persons(variants[j]))) ==>
        FirstPerson(db, variants) == Some(db.persons(variants[k]).data.value)
  {
    if variants != [] {
      FirstPersonFirstHit(db, variants[1..]);
      forall k | 0 < k < |variants| ensures variants[k] == variants[1..][k - 1] {
      }
    }
  }

  /** Where a participant comes from: a joined row when one is found, the
      fallback path otherwise; a fallback participant always carries the
      person's database id; and the personal id falls back to the trimmed
      input, so it is never empty for a non-blank input. */
  lemma ParticipantSources(db: Db, participantId: string)
    ensures var trimmed := Trim(participantId);
      var variants := IdVariants(trimmed);
      match ParticipantLookup(db, participantId)
      case None =>
        JoinedLookup(db, variants, trimmed).None?
        && (FirstPerson(db, variants).None? || StringField(FirstPerson(db, variants).value, ["id"]) == "")
      case Some(p) =>
        && (p.personalId != "" || trimmed == "")
        && (p.sourceTable == JoinSource <==> JoinedLookup(db, variants, trimmed).Some?)
        && (p.sourceTable == FallbackSource ==>
              p.personId != "" && p.personId == StringField(FirstPerson(db, variants).value, ["id"]))
  {
    assert JoinSource[0] != FallbackSource[0];
  }

  /** A participant found for a non-blank id has a non-empty personal id. */
  lemma PersonalIdNeverEmpty(db: Db, participantId: string)
    requires Trim(participantId) != ""
    ensures ParticipantLookup(db, participantId).Some? ==> ParticipantLookup(db, participantId).value.personalId != ""
  {
    ParticipantSources(db, participantId);
  }

  // ----------------------------------------------------------------------
  // The prompt

  const NoParticipantText: string :=
    "Für die angegebene ID wurden keine Teilnehmerdaten in der Datenbank gefunden. Coache trotzdem gemäß den obigen Regeln."

  /** A labelled line, present only for a non-empty value. */
  function OptionalLine(tag: string, value: string): string
  {
    if value != "" then tag + value + "\n" else ""
  }

  /** The participant part of the prompt. */
  function ParticipantBlock(p: Option<ParticipantData>): string
  {
    match p
    case None => NoParticipantText
    case Some(q) =>
      "- Persönliche ID: " + q.personalId + "\n"
      + OptionalLine("- Vorname: ", q.firstName)
      + OptionalLine("- Nachname: ", q.lastName)
      + OptionalLine("- Firma: ", q.company)
      + OptionalLine("- Position: ", q.position)
      + OptionalLine("- Gueltig seit: ", q.validFrom)
      + OptionalLine("- Quelle: ", q.sourceTable)
  }

  /** The lines of the participant part, as a list: the personal id, then
      one line per non-empty field in a fixed order. */
  function Labeled(tag: string, value: string): seq<string>
  {
    if value != "" then [tag + value] else []
  }

  function ParticipantLines(q: ParticipantData): seq<string>
  {
    ["- Persönliche ID: " + q.personalId]
    + Labeled("- Vorname: ", q.firstName)
    + Labeled("- Nachname: ", q.lastName)
    + Labeled("- Firma: ", q.company)
    + Labeled("- Position: ", q.position)
    + Labeled("- Gueltig seit: ", q.validFrom)
    + Labeled("- Quelle: ", q.sourceTable)
  }

  /** Each line followed by a line feed. */
  function Unlines(xs: seq<string>): string
  {
    if xs == [] then "" else Unlines(xs[..|xs| - 1]) + xs[|xs| - 1] + "\n"
  }

  lemma {:induction false} UnlinesAppend(a: seq<string>, b: seq<string>)
    ensures Unlines(a + b) == Unlines(a) + Unlines(b)
    decreases |b|
  {
    if b != [] {
      UnlinesAppend(a, b[..|b| - 1]);
      assert (a + b)[..|a + b| - 1] == a + b[..|b| - 1];
    } else {
      assert a + b == a;
    }
  }

  lemma {:induction false} UnlinesIsJoin(xs: seq<string>)
    requires xs != []
    ensures Unlines(xs) == Join(xs + [""], "\n")
  {
    if |xs| == 1 {
      assert (xs + [""])[..1] == xs;
    } else {
      var init, last := xs[..|xs| - 1], xs[|xs| - 1];
      var j := Join(init, "\n");
      UnlinesIsJoin(init);
      JoinAppend(init, "", "\n");
      assert Unlines(xs) == j + "\n" + "" + last + "\n";
      assert init + [last] == xs;
      JoinAppend(init, last, "\n");
      JoinAppend(xs, "", "\n");
      assert Join(xs + [""], "\n") == j + "\n" + last + "\n" + "";
    }
  }

  lemma LabeledLine(tag: string, value: string)
    ensures Unlines(Labeled(tag, value)) == OptionalLine(tag, value)
  {
    if value != "" {
      assert [tag + value][..0] == [];
    }
  }

  /** The participant part is its lines, each followed by a line feed. */
  lemma ParticipantBlockIsUnlines(q: ParticipantData)
    ensures Unlines(ParticipantLines(q)) == ParticipantBlock(Some(q))
  {
    var first := ["- Persönliche ID: " + q.personalId];
    var l1 := Labeled("- Vorname: ", q.firstName);
    var l2 := Labeled("- Nachname: ", q.lastName);
    var l3 := Labeled("- Firma: ", q.company);
    var l4 := Labeled("- Position: ", q.position);
    var l5 := Labeled("- Gueltig seit: ", q.validFrom);
    var l6 := Labeled("- Quelle: ", q.sourceTable);
    assert Unlines(first) == "- Persönliche ID: " + q.personalId + "\n" by {
      assert first[..0] == [];
    }
    LabeledLine("- Vorname: ", q.firstName);
    LabeledLine("- Nachname: ", q.lastName);
    LabeledLine("- Firma: ", q.company);
    LabeledLine("- Position: ", q.position);
    LabeledLine("- Gueltig seit: ", q.validFrom);
    LabeledLine("- Quelle: ", q.sourceTable);
    UnlinesAppend(first, l1);
    UnlinesAppend(first + l1, l2);
    UnlinesAppend(first + l1 + l2, l3);
    UnlinesAppend(first + l1 + l2 + l3, l4);
    UnlinesAppend(first + l1 + l2 + l3 + l4, l5);
    UnlinesAppend(first + l1 + l2 + l3 + l4 + l5, l6);
  }

  /** The participant part reads back, line by line, as the personal id and
      the non-empty fields in order (followed by the empty rest after the
      last line feed), as long as no field spans several lines. */
  lemma ParticipantBlockReadsBack(q: ParticipantData)
    requires forall k | 0 <= k < |ParticipantLines(q)| :: '\n' !in ParticipantLines(q)[k]
    ensures Split(ParticipantBlock(Some(q)), '\n') == ParticipantLines(q) + [""]
  {
    var lines := ParticipantLines(q);
    ParticipantBlockIsUnlines(q);
    UnlinesIsJoin(lines);
    var pieces := lines + [""];
    assert forall k | 0 <= k < |pieces| :: '\n' !in pieces[k] by {
      forall k | 0 <= k < |pieces|
        ensures '\n' !in pieces[k]
      {
        if k < |lines| { assert pieces[k] == lines[k]; }
      }
    }
    SplitJoin(pieces, '\n');
  }

  /** `topicData?.name || topicCode`. */
  function TopicTitle(code: string, topic: Option<KnowledgeTopic>): string
  {
    Or(if topic.Some? then topic.value.name else "", code)
  }

  /** `topicData?.description ||` a sentence naming the code. */
  function TopicDescription(code: string, topic: Option<KnowledgeTopic>): string
  {
    Or(if topic.Some? then topic.value.description else "",
       "Für den angegebenen Topic-Code \"" + code + "\" wurde keine aktive Beschreibung in public.kb_topics gefunden.")
  }

  /** `generateSalesPrompt`: the guidelines, the role profile, the knowledge
      topic, the participant id and the participant part. */
  function SalesPrompt(guidelines: string, participantId: string, participant: Option<ParticipantData>,
                       role: int, code: string, topic: Option<KnowledgeTopic>): string
  {
    guidelines + "\n\n" + RoleInstructions(role)
    + "\n\nWISSENSBASIS\n- Topic-Code: " + code
    + "\n- Topic-Name: " + TopicTitle(code, topic)
    + "\n- Beschreibung: " + TopicDescription(code, topic)
    + "\n\nTEILNEHMER-ID:\n" + participantId
    + "\n\nTEILNEHMERDATEN AUS DER DATENBANK (falls vorhanden):\n" + ParticipantBlock(participant) + "\n"
  }

  /** The opening line greets the participant by first name and names the topic. */
  function OpeningText(participant: Option<ParticipantData>, topic: Option<KnowledgeTopic>, code: string): string
  {
    var firstName := Or(if participant.Some? then Trim(participant.value.firstName) else "", "Teilnehmer");
    var topicName := Or(if topic.Some? then Trim(topic.value.name) else "", code);
    "Hallo " + firstName + ", schön, dass du da bist. Heute erfähst du, was die Vorteile von " + topicName + " sind."
  }

  // ----------------------------------------------------------------------
  // The endpoint

  /** The context the endpoint asks the avatar service to create. */
  datatype ContextRequest = ContextRequest(name: string, avatarId: Json, voiceId: Json, prompt: string, openingText: string)

  /** The avatar service's answer: its `ok` flag and status, and its body
      (`None` when it is not JSON). */
  datatype ApiReply = ApiReply(ok: bool, status: int, body: Option<Json>)

  datatype Response =
    | MissingParticipant
    | ApiError(status: int, error: Json)
    | Created(contextId: Option<Json>, businessName: string, avatarRole: int, kbTopicCode: string,
              personId: Option<string>, personalId: string)
    | ServerError

  /** `(participantId || "").toString().trim()`. */
  function EffectiveId(body: Json): string
  {
    var v := Get(body, "participantId");
    if Truthy(v) then Trim(ToJsString(v.value)) else ""
  }

  /** `(KB_TOPIC_CODE || "avatar_benefits").trim().toLowerCase()`. */
  function SelectedTopicCode(cfg: Config): string
  {
    NormalizeCode(Or(if cfg.kbTopicCode.Some? then cfg.kbTopicCode.value else "", DefaultTopicCode))
  }

  /** `v || fallback` for the avatar and voice ids of the request. */
  function OrDefault(v: Option<Json>, fallback: string): Json
  {
    if Truthy(v) then v.value else JStr(fallback)
  }

  /** `arr?.[0]`: the first element of an array or the property "0" of an object. */
  function Index0(v: Option<Json>): Option<Json>
  {
    if v.Some? && v.value.JArr? then (if |v.value.items| > 0 then Some(v.value.items[0]) else None)
    else if v.Some? && v.value.JObj? then Get(v.value, "0")
    else None
  }

  /** The context request built for a non-blank participant id. */
  function BuildRequest(body: Json, cfg: Config, id: string, participant: Option<ParticipantData>,
                        topic: Option<KnowledgeTopic>, now: int): ContextRequest
  {
    var code := SelectedTopicCode(cfg);
    ContextRequest(
      "Teilnehmer " + id + " Coaching - ID " + id + " (" + IntToString(now) + ")",
      OrDefault(Get(body, "avatarId"), DefaultAvatarId),
      OrDefault(Get(body, "voiceId"), DefaultVoiceId),
      SalesPrompt(cfg.guidelines, id, participant, RoleConfig(cfg.role), code, topic),
      OpeningText(participant, topic, code))
  }

  /** The response to the service's answer. Reading a body that is not JSON,
      or a property of a null body, throws and ends in the server error. */
  function ReplyResponse(reply: ApiReply, cfg: Config, id: string, participant: Option<ParticipantData>): Response
  {
    if reply.body.None? || reply.body.value.JNull? then ServerError
    else if !reply.ok then
      var message := GetOpt(Index0(Get(reply.body.value, "data")), "message");
      ApiError(reply.status, if Truthy(message) then message.value else JStr("Kontext konnte nicht erstellt werden."))
    else
      var data := Get(reply.body.value, "data");
      var contextId := if Truthy(GetOpt(data, "context_id")) then GetOpt(data, "context_id") else GetOpt(data, "id");
      Created(contextId, "Teilnehmer " + id, RoleConfig(cfg.role), SelectedTopicCode(cfg),
              if participant.Some? && participant.value.personId != "" then Some(participant.value.personId) else None,
              Or(if participant.Some? then participant.value.personalId else "", id))
  }

  /** A body that is not JSON, or is null, throws when it is destructured. */
  predicate Readable(body: Option<Json>) {
    body.Some? && !body.value.JNull?
  }

  /** The request the endpoint sends to the avatar service, if any: one for
      every readable body with a non-blank participant id. */
  function Request(body: Option<Json>, cfg: Config, db: Db, now: int): (r: Option<ContextRequest>)
    ensures r.Some? <==> Readable(body) && EffectiveId(body.value) != ""
  {
    if !Readable(body) then None
    else
      var id := EffectiveId(body.value);
      if id == "" then None
      else
        var participant := ParticipantLookup(db, id);
        var topic := TopicData(SelectedTopicCode(cfg), db.topics);
        Some(BuildRequest(body.value, cfg, id, participant, topic, now))
  }

  /** The endpoint's response. */
  function Respond(body: Option<Json>, cfg: Config, db: Db, reply: ApiReply): Response
  {
    if !Readable(body) then ServerError
    else
      var id := EffectiveId(body.value);
      if id == "" then MissingParticipant
      else ReplyResponse(reply, cfg, id, ParticipantLookup(db, id))
  }

  /** `POST`. */
  method Post(body: Option<Json>, cfg: Config, db: Db, now: int, reply: ApiReply)
    returns (request: Option<ContextRequest>, response: Response)
    ensures request == Request(body, cfg, db, now)
    ensures response == Respond(body, cfg, db, reply)
  {
    if body.None? || body.value.JNull? {
      return None, ServerError;
    }
    var id := EffectiveId(body.value);
    if id == "" {
      return None, MissingParticipant;
    }
    var participant := FetchParticipantData(db, id);
    var topic := TopicData(SelectedTopicCode(cfg), db.topics);
    request := Some(BuildRequest(body.value, cfg, id, participant, topic, now));
    response := ReplyResponse(reply, cfg, id, participant);
  }

  // ----------------------------------------------------------------------
  // Properties of the endpoint

  /** A blank participant id is refused, and the answer depends neither on
      the database nor on the service. */
  lemma MissingParticipantRefused(body: Json, cfg: Config, db: Db, other: Db, reply: ApiReply, otherReply: ApiReply)
    requires !body.JNull?
    ensures Respond(Some(body), cfg, db, reply) == MissingParticipant <==> EffectiveId(body) == ""
    ensures EffectiveId(body) == "" ==> Respond(Some(body), cfg, other, otherReply) == MissingParticipant
  {
  }

  /** The effective id is already trimmed. */
  lemma EffectiveIdIsTrimmed(body: Json)
    ensures Trim(EffectiveId(body)) == EffectiveId(body)
  {
    var v := Get(body, "participantId");
    if Truthy(v) {
      TrimIdempotent(ToJsString(v.value));
    } else {
      TrimSpec("");
    }
  }

  /** A created context reports one of the four roles, the selected topic
      code, the business name of the id and a non-empty personal id; it is
      created only when the service answered `ok`. */
  lemma CreatedResponse(body: Option<Json>, cfg: Config, db: Db, reply: ApiReply)
    requires Respond(body, cfg, db, reply).Created?
    ensures var response := Respond(body, cfg, db, reply);
      && reply.ok
      && IsRole(response.avatarRole)
      && response.kbTopicCode == SelectedTopicCode(cfg)
      && response.businessName == "Teilnehmer " + EffectiveId(body.value)
      && response.personalId != ""
  {
    var id := EffectiveId(body.value);
    EffectiveIdIsTrimmed(body.value);
    PersonalIdNeverEmpty(db, id);
  }

  /** An answer that is not `ok` never creates a context: it is passed on
      with its status, or ends in the server error when its body is unreadable. */
  lemma ServiceErrorPassedOn(body: Option<Json>, cfg: Config, db: Db, reply: ApiReply)
    requires !reply.ok
    ensures var response := Respond(body, cfg, db, reply);
      response.ApiError? ==> response.status == reply.status
    ensures !Respond(body, cfg, db, reply).Created?
  {
  }

  /** The topic code the response reports is already normalised, so the
      topic is queried with that same code. */
  lemma TopicQueriedWithReportedCode(cfg: Config)
    ensures NormalizeCode(SelectedTopicCode(cfg)) == SelectedTopicCode(cfg)
  {
    NormalizeCodeIdempotent(Or(if cfg.kbTopicCode.Some? then cfg.kbTopicCode.value else "", DefaultTopicCode));
  }

  /** The opening line names the participant's first name when there is one
      and "Teilnehmer" otherwise. */
  lemma OpeningGreeting(participant: Option<ParticipantData>, topic: Option<KnowledgeTopic>, code: string)
    ensures var first := if participant.Some? && participant.value.firstName != "" then participant.value.firstName else "Teilnehmer";
      (participant.Some? ==> Trim(participant.value.firstName) == participant.value.firstName) ==>
        OpeningText(participant, topic, code)[..6 + |first|] == "Hallo " + first
  {
  }
}
