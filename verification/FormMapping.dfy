/** Mapping discovered form fields to truthful answers: `map_fields` of app/execution/forms.py. The regular
    expressions, the question classifier and the number and date parsers are the functions of a `Reader`. */
module FormMapping {
  import opened Base
  import opened Options

  datatype FieldType =
    | TextField | TextArea | Email | Phone | Select | MultiSelect | Checkbox | Radio | Numeric | Date | File
    | Combobox | YesNo | UnknownType

  datatype Category =
    | WorkAuthorization | Sponsorship | Relocation | NoticePeriod | Salary | WorkMode | StartDate | Clearance
    | Voluntary | Location
    | Education | ExperienceYears | CurrentEmployer | CurrentTitle | ReferralSource | PriorEmployment
    | ConflictOfInterest | Consent
    | AboutYou | WhyRole | WhyCompany | RelevantProject | ExperienceWith | Other

  /** `FACT_CATEGORIES`. */
  predicate IsFact(c: Category) {
    !(c.AboutYou? || c.WhyRole? || c.WhyCompany? || c.RelevantProject? || c.ExperienceWith? || c.Other?)
  }

  predicate EmployerSpecific(c: Category) {
    c.WhyCompany? || c.WhyRole?
  }

  predicate ExactOnly(c: Category) {
    c.Education? || c.ConflictOfInterest?
  }

  predicate ChoiceType(k: FieldType) {
    k.Select? || k.Radio? || k.Checkbox? || k.MultiSelect? || k.YesNo?
  }

  datatype Field = Field(externalId: string, name: string, kind: FieldType, required: bool, options: seq<Choice>)

  datatype PreparedStatus = PreparedAnswered | PreparedNeedsInput | PreparedNeedsReview

  datatype Prepared = Prepared(id: string, key: string, category: Category, answer: Option<string>,
    status: PreparedStatus, evidence: seq<string>)

  datatype BankEntry = BankEntry(key: string, category: Category, answer: string, evidence: seq<string>)

  datatype Package = Package(
    profile: map<string, string>,
    employers: seq<string>,
    company: string,
    resume: Option<seq<string>>,        // the evidence keys of the prepared resume
    coverLetter: Option<seq<string>>,
    answers: seq<Prepared>,
    bank: seq<BankEntry>)

  datatype Pattern = Pattern(found: string -> bool, fact: string)

  datatype Reader = Reader(
    lx: Lexicon,
    classify: string -> Category,
    identity: seq<Pattern>,
    education: seq<Pattern>,
    fileKey: (string, string) -> string,
    autofill: string -> bool,
    resume: string -> bool,
    cover: string -> bool,
    secret: string -> bool,
    url: string -> bool,
    link: string -> bool,
    strip: string -> string,
    yesNo: string -> bool,
    topic: string -> bool,
    generic: string -> bool,
    namesCompany: (string, string) -> bool,
    namesOtherCountry: (string, Option<string>) -> bool,
    number: string -> Option<string>,
    date: string -> Option<string>)

  datatype AnswerStatus = Answered | NeedsUserInput | NeedsReview | Skipped

  datatype Source = Preparation | AnswerBank | Artifact | Profile | User | NoSource

  datatype Mapped = Mapped(
    key: string, required: bool, category: Category, status: AnswerStatus, source: Source,
    answer: Option<string>, selected: seq<string>, artifact: Option<string>, preparedId: Option<string>,
    evidence: seq<string>)

  // ------------------------------------------------------------------ answers

  /** `classify_question` looks at the normalised question only. */
  function CategoryOf(rd: Reader, f: Field): Category {
    rd.classify(rd.lx.normalize(f.name))
  }

  function Blank(rd: Reader, f: Field): Mapped {
    Mapped(rd.lx.normalize(f.name), f.required, CategoryOf(rd, f), Skipped, NoSource, None, [], None, None, [])
  }

  /** The row is this field's own, does not speak for the candidate, and passes no required field over in silence. */
  predicate OwnRow(rd: Reader, f: Field, m: Mapped) {
    && m.key == rd.lx.normalize(f.name) && m.category == CategoryOf(rd, f) && m.required == f.required
    && !m.source.User? && (f.required ==> !m.status.Skipped?)
  }

  predicate OwnRowIfAny(rd: Reader, f: Field, m: Option<Mapped>) {
    m.Some? ==> OwnRow(rd, f, m.value)
  }

  /** `_ask`: a question for the candidate or a review when required, skipped when optional. */
  function Ask(m: Mapped, review: bool): Mapped {
    m.(status := if !m.required then Skipped else if review then NeedsReview else NeedsUserInput)
  }

  /** Where an answer comes from. */
  datatype Origin = Origin(text: string, source: Source, evidence: seq<string>, preparedId: Option<string>)

  /** `_typed`: fit a text to the field type, or ask the candidate. */
  function Typed(rd: Reader, f: Field, o: Origin): (r: Mapped)
    requires !o.source.User?
    ensures OwnRow(rd, f, r)
  {
    var m := Blank(rd, f).(source := o.source, evidence := o.evidence, preparedId := o.preparedId);
    var asked := Ask(m.(answer := Some(o.text)), false);
    if f.kind.TextField? || f.kind.TextArea? || f.kind.Email? || f.kind.Phone?
    then m.(status := Answered, answer := Some(o.text))
    else if ChoiceType(f.kind) then
      var chosen := Match(rd.lx, f.options, o.text, f.kind.MultiSelect?, f.kind.Checkbox?,
                          CategoryOf(rd, f).Education?);
      if chosen != [] then m.(status := Answered, answer := Some(o.text), selected := chosen) else asked
    else if f.kind.Combobox? then
      if f.options != [] then
        var chosen := Choose(rd.lx, Labels(f.options), o.text, m.category.Education?);
        if chosen.Some? && chosen.value != ""
        then m.(status := Answered, answer := Some(o.text), selected := [chosen.value]) else asked
      else if rd.yesNo(m.key) && rd.lx.polarity(o.text).None? then asked
      else m.(status := Answered, answer := Some(o.text))
    else if f.kind.Numeric? then
      if rd.number(o.text).Some? then m.(status := Answered, answer := rd.number(o.text)) else asked
    else if f.kind.Date? then
      if rd.date(o.text).Some? then m.(status := Answered, answer := rd.date(o.text)) else asked
    else Ask(m.(answer := Some(o.text)), true)
  }

  // ------------------------------------------------------------------ lookups

  /** `{a.question_key: a}`: the last one with the key. */
  function PreparedFor(answers: seq<Prepared>, key: string): Option<Prepared> {
    if answers == [] then None
    else
      var last := answers[|answers| - 1];
      if last.key == key then Some(last) else PreparedFor(answers[..|answers| - 1], key)
  }

  function BankFor(bank: seq<BankEntry>, key: string): Option<BankEntry> {
    if bank == [] then None
    else
      var last := bank[|bank| - 1];
      if last.key == key then Some(last) else BankFor(bank[..|bank| - 1], key)
  }

  predicate Usable(a: Prepared) {
    a.status.PreparedAnswered? && a.answer.Some? && a.answer.value != ""
  }

  function PreparedIn(answers: seq<Prepared>, c: Category): (r: Option<Prepared>)
    ensures r.Some? ==> Usable(r.value) && r.value.category == c && r.value in answers
  {
    if answers == [] then None
    else
      var before := PreparedIn(answers[..|answers| - 1], c);
      var last := answers[|answers| - 1];
      if before.Some? then before else if last.category == c && Usable(last) then Some(last) else None
  }

  function BankIn(bank: seq<BankEntry>, c: Category): Option<BankEntry> {
    if bank == [] then None
    else
      var before := BankIn(bank[..|bank| - 1], c);
      var last := bank[|bank| - 1];
      if before.Some? then before else if last.category == c then Some(last) else None
  }

  /** What the four dictionaries hold for one question. */
  datatype Found = Found(prepared: Option<Prepared>, bank: Option<BankEntry>, preparedByCategory: Option<Prepared>,
    bankByCategory: Option<BankEntry>)

  function Lookup(p: Package, key: string, c: Category): Found {
    Found(PreparedFor(p.answers, key), BankFor(p.bank, key), PreparedIn(p.answers, c), BankIn(p.bank, c))
  }

  function Fact(p: Package, fact: string): Option<string> {
    if fact in p.profile && p.profile[fact] != "" then Some(p.profile[fact]) else None
  }

  function OfFact(fact: string, value: string): Origin {
    Origin(value, Profile, ["profile:" + fact], None)
  }

  function OfPrepared(a: Prepared, text: string): Origin {
    Origin(text, Preparation, a.evidence, Some(a.id))
  }

  function OfBank(b: BankEntry, text: string): Origin {
    Origin(text, AnswerBank, b.evidence, None)
  }

  // ------------------------------------------------------------------- stages

  function MapFile(rd: Reader, f: Field, p: Package): (r: Mapped)
    ensures OwnRow(rd, f, r)
  {
    var m := Blank(rd, f);
    var fileKey := rd.fileKey(m.key, f.externalId);
    if rd.autofill(fileKey) && !f.required then m
    else if rd.resume(fileKey) && p.resume.Some?
      then m.(status := Answered, source := Artifact, artifact := Some("RESUME"), evidence := p.resume.value)
    else if rd.cover(fileKey) && p.coverLetter.Some?
      then m.(status := Answered, source := Artifact, artifact := Some("COVER_LETTER"), evidence := p.coverLetter.value)
    else if rd.cover(m.key) && !f.required then m
    else Ask(m, false)
  }

  /** The first identity pattern that fits; only a country may pick an option. */
  function IdentityFact(patterns: seq<Pattern>, key: string, picksOption: bool): Option<string> {
    if patterns == [] then None
    else if !(picksOption && patterns[0].fact != "country") && patterns[0].found(key) then Some(patterns[0].fact)
    else IdentityFact(patterns[1..], key, picksOption)
  }

  function EducationFact(patterns: seq<Pattern>, key: string): Option<string> {
    if patterns == [] then None
    else if patterns[0].found(key) then Some(patterns[0].fact)
    else EducationFact(patterns[1..], key)
  }

  /** A question for a link takes only an exact answer that is a link. */
  function MapLink(rd: Reader, f: Field, found: Found): (r: Mapped)
    ensures OwnRow(rd, f, r)
  {
    var m := Blank(rd, f);
    var a, b := found.prepared, found.bank;
    if a.Some? && Usable(a.value) && rd.link(rd.strip(a.value.answer.value))
    then Typed(rd, f, OfPrepared(a.value, rd.strip(a.value.answer.value)))
    else if b.Some? && rd.link(rd.strip(b.value.answer)) then Typed(rd, f, OfBank(b.value, rd.strip(b.value.answer)))
    else Ask(m, false)
  }

  /** By exact question: the preparation, then the bank, then the preparation's open question. */
  function MapExact(rd: Reader, f: Field, p: Package, found: Found): (r: Option<Mapped>)
    ensures OwnRowIfAny(rd, f, r)
  {
    var m := Blank(rd, f);
    var a, b := found.prepared, found.bank;
    if a.Some? && Usable(a.value) then Some(Typed(rd, f, OfPrepared(a.value, a.value.answer.value)))
    else if b.Some? && !(EmployerSpecific(m.category) && rd.generic(m.key) && !rd.namesCompany(m.key, p.company)) then
      Some(Typed(rd, f, OfBank(b.value, b.value.answer)))
    else if a.Some? && a.value.status.PreparedNeedsInput?
      then Some(m.(status := NeedsUserInput, preparedId := Some(a.value.id)))
    else None
  }

  predicate Shareable(rd: Reader, c: Category, key: string) {
    !EmployerSpecific(c) && !ExactOnly(c) && !(c.ExperienceYears? && rd.topic(key))
  }

  /** Consent / acknowledgement boxes the person's one recorded consent may tick. */
  predicate ConsentType(k: FieldType) {
    k.Checkbox? || k.Select? || k.Radio? || k.YesNo? || k.Combobox?
  }

  /** `_category_guard`. */
  function Guard(rd: Reader, f: Field, p: Package): (r: Option<Mapped>)
    ensures OwnRowIfAny(rd, f, r)
  {
    var m := Blank(rd, f);
    if (m.category.WorkAuthorization? || m.category.Sponsorship?) && rd.namesOtherCountry(m.key, Fact(p, "country"))
    then Some(Ask(m, false))
    else if m.category.PriorEmployment? && WorkedThere(rd, p) then Some(Ask(m, false))
    else if m.category.Consent? && !ConsentType(f.kind) then Some(Ask(m, false))
    else if m.category.Consent? && !f.required then Some(m)
    else None
  }

  predicate WorkedThere(rd: Reader, p: Package) {
    var company := rd.lx.normalize(p.company);
    company != "" && exists i :: 0 <= i < |p.employers| && Related(rd.lx.normalize(p.employers[i]), company)
  }

  predicate Related(employer: string, company: string) {
    employer != "" && (Within(employer, company) || Within(company, employer))
  }

  function MapCategory(rd: Reader, f: Field, p: Package, found: Found): (r: Option<Mapped>)
    requires found.preparedByCategory.Some? ==> Usable(found.preparedByCategory.value)
    ensures OwnRowIfAny(rd, f, r)
  {
    var m := Blank(rd, f);
    if m.category.Other? then None
    else
      var a := found.preparedByCategory;
      if a.Some? then Some(Typed(rd, f, OfPrepared(a.value, a.value.answer.value)))
      else if Guard(rd, f, p).Some? then Guard(rd, f, p)
      else
        var b := found.bankByCategory;
        if Shareable(rd, m.category, m.key) && b.Some? then Some(Typed(rd, f, OfBank(b.value, b.value.answer)))
        else None
  }

  function MapFact(rd: Reader, f: Field, p: Package): (r: Mapped)
    ensures OwnRow(rd, f, r)
  {
    var m := Blank(rd, f);
    var taught := if m.category.Education? then EducationFact(rd.education, m.key) else None;
    if taught.Some? && Fact(p, taught.value).Some? then Typed(rd, f, OfFact(taught.value, Fact(p, taught.value).value))
    else if m.category.Location? && Fact(p, "location").Some?
      then Typed(rd, f, OfFact("location", Fact(p, "location").value))
    else Ask(m, !IsFact(m.category))
  }

  function FoundFor(rd: Reader, f: Field, p: Package): Found {
    Lookup(p, rd.lx.normalize(f.name), CategoryOf(rd, f))
  }

  function MapOne(rd: Reader, f: Field, p: Package): (r: Mapped)
    ensures OwnRow(rd, f, r)
  {
    MapWith(rd, f, p, FoundFor(rd, f, p))
  }

  /** `_map_one`. */
  function MapWith(rd: Reader, f: Field, p: Package, found: Found): (r: Mapped)
    requires found.preparedByCategory.Some? ==> Usable(found.preparedByCategory.value)
    ensures OwnRow(rd, f, r)
  {
    var m := Blank(rd, f);
    if f.kind.UnknownType? then Ask(m, true)
    else if f.kind.File? then MapFile(rd, f, p)
    else
      var identity := IdentityFact(rd.identity, m.key, ChoiceType(f.kind) || f.kind.Combobox?);
      if identity.Some? then
        if Fact(p, identity.value).Some? then Typed(rd, f, OfFact(identity.value, Fact(p, identity.value).value))
        else Ask(m, false)
      else if m.category.Voluntary? || rd.secret(m.key) then Ask(m, false)
      else if rd.url(m.key) then MapLink(rd, f, found)
      else
        var exact := MapExact(rd, f, p, found);
        if exact.Some? then exact.value
        else
          var shared := MapCategory(rd, f, p, found);
          if shared.Some? then shared.value else MapFact(rd, f, p)
  }

  // --------------------------------------------------------- no invented answers

  /** The answer is this text, fitted to the field without adding anything. */
  predicate Fits(rd: Reader, f: Field, m: Mapped, text: string) {
    match f.kind
    case Numeric => m.answer.Some? && m.answer == rd.number(text) && m.selected == []
    case Date => m.answer.Some? && m.answer == rd.date(text) && m.selected == []
    case Combobox => m.answer == Some(text)
      && (if f.options == [] then m.selected == [] else |m.selected| == 1 && OfferedName(f.options, m.selected[0]))
    case File => false
    case UnknownType => false
    case _ =>
      && m.answer == Some(text)
      && (if ChoiceType(f.kind) then m.selected != [] && forall v :: v in m.selected ==> Offered(f.options, v)
            else m.selected == [])
  }

  predicate OfferedName(options: seq<Choice>, name: string) {
    exists i :: 0 <= i < |options| && options[i].name == name
  }

  /** The bank entry may answer the question: asked in these very words, or shared by its category. */
  predicate MayReuse(rd: Reader, m: Mapped, b: BankEntry) {
    b.key == m.key || (b.category == m.category && Shareable(rd, m.category, m.key))
  }

  /** An answered field traces to one recorded thing. */
  ghost predicate Grounded(rd: Reader, f: Field, p: Package, m: Mapped) {
    match m.source
    case Artifact =>
      && f.kind.File? && m.answer.None? && m.selected == []
      && ((m.artifact == Some("RESUME") && p.resume == Some(m.evidence))
          || (m.artifact == Some("COVER_LETTER") && p.coverLetter == Some(m.evidence)))
    case Profile =>
      && m.artifact.None?
      && exists fact: string ::
           Fact(p, fact).Some? && m.evidence == ["profile:" + fact] && Fits(rd, f, m, Fact(p, fact).value)
    case Preparation =>
      m.artifact.None? && exists i :: 0 <= i < |p.answers| && FromPrepared(rd, f, m, p.answers[i])
    case AnswerBank =>
      m.artifact.None? && m.preparedId.None? && exists i :: 0 <= i < |p.bank| && FromBank(rd, f, m, p.bank[i])
    case _ => false
  }

  predicate FromPrepared(rd: Reader, f: Field, m: Mapped, a: Prepared) {
    && Usable(a) && m.preparedId == Some(a.id) && m.evidence == a.evidence
    && (a.key == m.key || a.category == m.category)
    && (Fits(rd, f, m, a.answer.value) || Fits(rd, f, m, rd.strip(a.answer.value)))
  }

  predicate FromBank(rd: Reader, f: Field, m: Mapped, b: BankEntry) {
    m.evidence == b.evidence && MayReuse(rd, m, b) && (Fits(rd, f, m, b.answer) || Fits(rd, f, m, rd.strip(b.answer)))
  }

  /** What is typed keeps its origin, and an answer fits the field. */
  predicate TypedWell(rd: Reader, f: Field, o: Origin, m: Mapped) {
    && m.source == o.source && m.evidence == o.evidence && m.preparedId == o.preparedId && m.artifact.None?
    && (m.status.Answered? ==> !f.kind.File? && !f.kind.UnknownType? && Fits(rd, f, m, o.text))
  }

  lemma ChosenIsOffered(lx: Lexicon, options: seq<Choice>, text: string, education: bool)
    ensures var chosen := Choose(lx, Labels(options), text, education);
      chosen.Some? ==> OfferedName(options, chosen.value)
  {
    if Choose(lx, Labels(options), text, education).Some? {
      var i := LookupIsWellDefined(lx, options, text, education);
    }
  }

  lemma TypedChoiceFits(rd: Reader, f: Field, o: Origin)
    requires !o.source.User? && ChoiceType(f.kind)
    ensures TypedWell(rd, f, o, Typed(rd, f, o))
  {
    MatchIsOffered(rd.lx, f.options, o.text, f.kind.MultiSelect?, f.kind.Checkbox?, CategoryOf(rd, f).Education?);
  }

  lemma TypedFits(rd: Reader, f: Field, o: Origin)
    requires !o.source.User?
    ensures TypedWell(rd, f, o, Typed(rd, f, o))
  {
    if ChoiceType(f.kind) {
      TypedChoiceFits(rd, f, o);
    } else if f.kind.Combobox? {
      ChosenIsOffered(rd.lx, f.options, o.text, CategoryOf(rd, f).Education?);
    }
  }

  lemma {:induction false} PreparedForIsListed(answers: seq<Prepared>, key: string) returns (i: nat)
    requires PreparedFor(answers, key).Some?
    ensures i < |answers| && answers[i] == PreparedFor(answers, key).value && answers[i].key == key
  {
    if answers[|answers| - 1].key == key {
      i := |answers| - 1;
    } else {
      i := PreparedForIsListed(answers[..|answers| - 1], key);
    }
  }

  lemma {:induction false} PreparedInIsListed(answers: seq<Prepared>, c: Category) returns (i: nat)
    requires PreparedIn(answers, c).Some?
    ensures i < |answers| && answers[i] == PreparedIn(answers, c).value && answers[i].category == c
    ensures Usable(answers[i])
  {
    if PreparedIn(answers[..|answers| - 1], c).Some? {
      i := PreparedInIsListed(answers[..|answers| - 1], c);
    } else {
      i := |answers| - 1;
    }
  }

  lemma {:induction false} BankForIsListed(bank: seq<BankEntry>, key: string) returns (i: nat)
    requires BankFor(bank, key).Some?
    ensures i < |bank| && bank[i] == BankFor(bank, key).value && bank[i].key == key
  {
    if bank[|bank| - 1].key == key {
      i := |bank| - 1;
    } else {
      i := BankForIsListed(bank[..|bank| - 1], key);
    }
  }

  lemma {:induction false} BankInIsListed(bank: seq<BankEntry>, c: Category) returns (i: nat)
    requires BankIn(bank, c).Some?
    ensures i < |bank| && bank[i] == BankIn(bank, c).value && bank[i].category == c
  {
    if BankIn(bank[..|bank| - 1], c).Some? {
      i := BankInIsListed(bank[..|bank| - 1], c);
    } else {
      i := |bank| - 1;
    }
  }

  ghost predicate Truthful(rd: Reader, f: Field, p: Package, m: Mapped) {
    m.status.Answered? ==> Grounded(rd, f, p, m)
  }

  lemma PreparedGrounds(rd: Reader, f: Field, p: Package, i: nat, text: string)
    requires i < |p.answers| && Usable(p.answers[i])
    requires (text == p.answers[i].answer.value || text == rd.strip(p.answers[i].answer.value))
    requires p.answers[i].key == Blank(rd, f).key || p.answers[i].category == Blank(rd, f).category
    ensures Truthful(rd, f, p, Typed(rd, f, OfPrepared(p.answers[i], text)))
  {
    var m := Typed(rd, f, OfPrepared(p.answers[i], text));
    TypedFits(rd, f, OfPrepared(p.answers[i], text));
    assert m.status.Answered? ==> FromPrepared(rd, f, m, p.answers[i]);
  }

  lemma BankGrounds(rd: Reader, f: Field, p: Package, i: nat, text: string)
    requires i < |p.bank| && (text == p.bank[i].answer || text == rd.strip(p.bank[i].answer))
    requires MayReuse(rd, Blank(rd, f), p.bank[i])
    ensures Truthful(rd, f, p, Typed(rd, f, OfBank(p.bank[i], text)))
  {
    var m := Typed(rd, f, OfBank(p.bank[i], text));
    TypedFits(rd, f, OfBank(p.bank[i], text));
    assert m.status.Answered? ==> FromBank(rd, f, m, p.bank[i]);
  }

  lemma FactGrounds(rd: Reader, f: Field, p: Package, fact: string)
    requires Fact(p, fact).Some?
    ensures Truthful(rd, f, p, Typed(rd, f, OfFact(fact, Fact(p, fact).value)))
  {
    TypedFits(rd, f, OfFact(fact, Fact(p, fact).value));
  }

  lemma LinkIsTruthful(rd: Reader, f: Field, p: Package)
    ensures Truthful(rd, f, p, MapLink(rd, f, FoundFor(rd, f, p)))
  {
    var key := Blank(rd, f).key;
    if PreparedFor(p.answers, key).Some? {
      var i := PreparedForIsListed(p.answers, key);
      if Usable(p.answers[i]) {
        PreparedGrounds(rd, f, p, i, rd.strip(p.answers[i].answer.value));
      }
    }
    if BankFor(p.bank, key).Some? {
      var i := BankForIsListed(p.bank, key);
      BankGrounds(rd, f, p, i, rd.strip(p.bank[i].answer));
    }
  }

  lemma ExactIsTruthful(rd: Reader, f: Field, p: Package)
    ensures var m := MapExact(rd, f, p, FoundFor(rd, f, p)); m.Some? ==> Truthful(rd, f, p, m.value)
  {
    var key := Blank(rd, f).key;
    if PreparedFor(p.answers, key).Some? {
      var i := PreparedForIsListed(p.answers, key);
      if Usable(p.answers[i]) {
        PreparedGrounds(rd, f, p, i, p.answers[i].answer.value);
      }
    }
    if BankFor(p.bank, key).Some? {
      var i := BankForIsListed(p.bank, key);
      BankGrounds(rd, f, p, i, p.bank[i].answer);
    }
  }

  lemma CategoryIsTruthful(rd: Reader, f: Field, p: Package)
    ensures var m := MapCategory(rd, f, p, FoundFor(rd, f, p)); m.Some? ==> Truthful(rd, f, p, m.value)
  {
    var m := Blank(rd, f);
    if PreparedIn(p.answers, m.category).Some? {
      var i := PreparedInIsListed(p.answers, m.category);
      PreparedGrounds(rd, f, p, i, p.answers[i].answer.value);
    } else if BankIn(p.bank, m.category).Some? && Shareable(rd, m.category, m.key) {
      var i := BankInIsListed(p.bank, m.category);
      BankGrounds(rd, f, p, i, p.bank[i].answer);
    }
  }

  /** No invented answers: for every form field and package, an ANSWERED field carries one recorded fact,
      prepared answer, bank entry or artifact, fitted to the field; what is selected is offered; a field of
      unknown type is never answered. */
  lemma NoInventedAnswers(rd: Reader, f: Field, p: Package)
    ensures var m := MapOne(rd, f, p);
      m.status.Answered? ==> Grounded(rd, f, p, m) && !f.kind.UnknownType?
  {
    var m := Blank(rd, f);
    var identity := IdentityFact(rd.identity, m.key, ChoiceType(f.kind) || f.kind.Combobox?);
    if f.kind.UnknownType? || f.kind.File? {
    } else if identity.Some? {
      if Fact(p, identity.value).Some? {
        FactGrounds(rd, f, p, identity.value);
      }
    } else if m.category.Voluntary? || rd.secret(m.key) {
    } else if rd.url(m.key) {
      LinkIsTruthful(rd, f, p);
    } else {
      PlainQuestionIsTruthful(rd, f, p);
    }
  }

  /** The last three stages: by exact question, by category, by recorded fact. */
  lemma PlainQuestionIsTruthful(rd: Reader, f: Field, p: Package)
    ensures var found := FoundFor(rd, f, p);
      var exact, shared := MapExact(rd, f, p, found), MapCategory(rd, f, p, found);
      Truthful(rd, f, p, if exact.Some? then exact.value else if shared.Some? then shared.value else MapFact(rd, f, p))
  {
    var found := FoundFor(rd, f, p);
    if MapExact(rd, f, p, found).Some? {
      ExactIsTruthful(rd, f, p);
    } else if MapCategory(rd, f, p, found).Some? {
      CategoryIsTruthful(rd, f, p);
    } else {
      FactIsTruthful(rd, f, p);
    }
  }

  lemma FactIsTruthful(rd: Reader, f: Field, p: Package)
    ensures Truthful(rd, f, p, MapFact(rd, f, p))
  {
    var m := Blank(rd, f);
    var taught := if m.category.Education? then EducationFact(rd.education, m.key) else None;
    if taught.Some? && Fact(p, taught.value).Some? {
      FactGrounds(rd, f, p, taught.value);
    }
    if Fact(p, "location").Some? {
      FactGrounds(rd, f, p, "location");
    }
  }

  /** Employer-specific, education and conflict-of-interest questions take a bank entry only in their own words. */
  lemma SensitiveQuestionsStayExact(rd: Reader, f: Field, p: Package) returns (i: nat)
    requires var m := MapOne(rd, f, p);
      m.status.Answered? && m.source.AnswerBank? && (EmployerSpecific(m.category) || ExactOnly(m.category))
    ensures i < |p.bank| && p.bank[i].key == rd.lx.normalize(f.name) && FromBank(rd, f, MapOne(rd, f, p), p.bank[i])
  {
    NoInventedAnswers(rd, f, p);
    i := BankOf(rd, f, p, MapOne(rd, f, p));
  }

  lemma BankOf(rd: Reader, f: Field, p: Package, m: Mapped) returns (i: nat)
    requires Grounded(rd, f, p, m) && m.source.AnswerBank?
    ensures i < |p.bank| && FromBank(rd, f, m, p.bank[i])
  {
    i :| 0 <= i < |p.bank| && FromBank(rd, f, m, p.bank[i]);
  }

  /** Voluntary questions and secrets are left to the candidate, unless the label is that of an identity field. */
  lemma VoluntaryIsLeftToTheCandidate(rd: Reader, f: Field, p: Package)
    requires !f.kind.File? && (CategoryOf(rd, f).Voluntary? || rd.secret(rd.lx.normalize(f.name)))
    requires IdentityFact(rd.identity, rd.lx.normalize(f.name), ChoiceType(f.kind) || f.kind.Combobox?).None?
    ensures !MapOne(rd, f, p).status.Answered? && MapOne(rd, f, p).answer.None?
  {
  }

  /** The questions a shared answer must not touch: authorisation for another country, earlier work at this
      employer, and consents that are typed or optional. */
  predicate Delicate(rd: Reader, f: Field, p: Package) {
    var key, c := rd.lx.normalize(f.name), CategoryOf(rd, f);
    || ((c.WorkAuthorization? || c.Sponsorship?) && rd.namesOtherCountry(key, Fact(p, "country")))
    || (c.PriorEmployment? && WorkedThere(rd, p))
    || (c.Consent? && (!f.required || !ConsentType(f.kind)))
  }

  /** A delicate question is answered from the bank only in its own words. */
  lemma DelicateTakesNoSharedAnswer(rd: Reader, f: Field, p: Package) returns (i: nat)
    requires Delicate(rd, f, p) && MapOne(rd, f, p).status.Answered? && MapOne(rd, f, p).source.AnswerBank?
    ensures i < |p.bank| && p.bank[i].key == rd.lx.normalize(f.name) && MapOne(rd, f, p).evidence == p.bank[i].evidence
  {
    DelicateIsGuarded(rd, f, p);
    BankAnswersComeFrom(rd, f, p);
    i := BankForIsListed(p.bank, rd.lx.normalize(f.name));
  }

  /** A bank answer is the entry for the exact question, or the category stage's. */
  lemma BankAnswersComeFrom(rd: Reader, f: Field, p: Package)
    requires MapOne(rd, f, p).status.Answered? && MapOne(rd, f, p).source.AnswerBank?
    ensures var m, found := MapOne(rd, f, p), FoundFor(rd, f, p);
      || (found.bank.Some? && m.evidence == found.bank.value.evidence)
      || MapCategory(rd, f, p, found) == Some(m)
  {
    var m, found := Blank(rd, f), FoundFor(rd, f, p);
    var identity := IdentityFact(rd.identity, m.key, ChoiceType(f.kind) || f.kind.Combobox?);
    if f.kind.UnknownType? || f.kind.File? {
    } else if identity.Some? {
      if Fact(p, identity.value).Some? {
        TypedFits(rd, f, OfFact(identity.value, Fact(p, identity.value).value));
      }
    } else if m.category.Voluntary? || rd.secret(m.key) {
    } else if rd.url(m.key) {
      BankInLink(rd, f, found);
    } else if MapExact(rd, f, p, found).Some? {
      BankInExact(rd, f, p, found);
    } else if MapCategory(rd, f, p, found).None? {
      NoBankInFact(rd, f, p);
    }
  }

  lemma BankInLink(rd: Reader, f: Field, found: Found)
    ensures var m := MapLink(rd, f, found);
      m.status.Answered? && m.source.AnswerBank? ==> found.bank.Some? && m.evidence == found.bank.value.evidence
  {
  }

  lemma BankInExact(rd: Reader, f: Field, p: Package, found: Found)
    ensures var m := MapExact(rd, f, p, found);
      m.Some? && m.value.status.Answered? && m.value.source.AnswerBank? ==>
        found.bank.Some? && m.value.evidence == found.bank.value.evidence
  {
  }

  lemma NoBankInFact(rd: Reader, f: Field, p: Package)
    ensures MapFact(rd, f, p).status.Answered? ==> !MapFact(rd, f, p).source.AnswerBank?
  {
  }

  lemma DelicateIsGuarded(rd: Reader, f: Field, p: Package)
    requires Delicate(rd, f, p)
    ensures Guard(rd, f, p).Some? && !Guard(rd, f, p).value.status.Answered?
    ensures var m := MapCategory(rd, f, p, FoundFor(rd, f, p));
      m.Some? && m.value.status.Answered? ==> m.value.source.Preparation?
  {
  }

  /** The field reaches the stages that look answers up: not a file, not an identity field, not a secret, a
      voluntary question or a link. */
  predicate AskedInWords(rd: Reader, f: Field) {
    var key := rd.lx.normalize(f.name);
    && !f.kind.UnknownType? && !f.kind.File?
    && IdentityFact(rd.identity, key, ChoiceType(f.kind) || f.kind.Combobox?).None?
    && !CategoryOf(rd, f).Voluntary? && !rd.secret(key) && !rd.url(key)
  }

  /** Nothing is recorded for these very words and nothing prepared for the category, but the bank has an entry
      of the category. */
  predicate OnlySharedEntry(found: Found) {
    && !(found.prepared.Some? && (Usable(found.prepared.value) || found.prepared.value.status.PreparedNeedsInput?))
    && found.bank.None? && found.preparedByCategory.None? && found.bankByCategory.Some?
  }

  /** "Experience with X" is neither employer-specific nor exact-only here: such a question is typed from the
      first bank entry of its category, whatever its topic, exactly when nothing better is recorded. */
  lemma ExperienceWithIsShared(rd: Reader, f: Field, p: Package)
    requires CategoryOf(rd, f).ExperienceWith? && AskedInWords(rd, f)
    ensures var found, m := FoundFor(rd, f, p), MapOne(rd, f, p);
      && (OnlySharedEntry(found) <==> m.source.AnswerBank? && found.bank.None?)
      && (OnlySharedEntry(found) ==>
            m == Typed(rd, f, OfBank(found.bankByCategory.value, found.bankByCategory.value.answer)))
  {
    var found := FoundFor(rd, f, p);
    ExactStage(rd, f, p, found);
    assert MapOne(rd, f, p) ==
      (if MapExact(rd, f, p, found).Some? then MapExact(rd, f, p, found).value
       else if MapCategory(rd, f, p, found).Some? then MapCategory(rd, f, p, found).value else MapFact(rd, f, p));
    assert Guard(rd, f, p).None?;
    FactSource(rd, f, p);
  }

  lemma ExactStage(rd: Reader, f: Field, p: Package, found: Found)
    requires CategoryOf(rd, f).ExperienceWith?
    ensures var exact := MapExact(rd, f, p, found);
      && (exact.Some? <==>
            || found.bank.Some?
            || (&& found.prepared.Some?
                && (Usable(found.prepared.value) || found.prepared.value.status.PreparedNeedsInput?)))
      && (exact.Some? && exact.value.source.AnswerBank? ==> found.bank.Some?)
  {
  }

  lemma FactSource(rd: Reader, f: Field, p: Package)
    ensures !MapFact(rd, f, p).source.AnswerBank?
  {
  }

  // ---------------------------------------------------------- as it is written

  /** `map_fields`: one answer per field, in order. */
  function MapAll(rd: Reader, fields: seq<Field>, p: Package): (r: seq<Mapped>)
    ensures |r| == |fields| && forall i :: 0 <= i < |fields| ==> r[i] == MapOne(rd, fields[i], p)
  {
    if fields == [] then [] else MapAll(rd, fields[..|fields| - 1], p) + [MapOne(rd, fields[|fields| - 1], p)]
  }

  /** `blocking`. */
  method Blocking(answers: seq<Mapped>) returns (needsInput: nat, needsReview: nat)
    ensures needsInput == 0 <==>
      forall i :: 0 <= i < |answers| && answers[i].required ==> !answers[i].status.NeedsUserInput?
    ensures needsReview == 0 <==>
      forall i :: 0 <= i < |answers| && answers[i].required ==> !answers[i].status.NeedsReview?
  {
    needsInput, needsReview := 0, 0;
    for i := 0 to |answers|
      invariant needsInput == 0 <==>
        forall j :: 0 <= j < i && answers[j].required ==> !answers[j].status.NeedsUserInput?
      invariant needsReview == 0 <==> forall j :: 0 <= j < i && answers[j].required ==> !answers[j].status.NeedsReview?
    {
      if answers[i].required && answers[i].status.NeedsUserInput? { needsInput := needsInput + 1; }
      if answers[i].required && answers[i].status.NeedsReview? { needsReview := needsReview + 1; }
    }
  }

  /** A form nothing blocks has every required field answered. */
  lemma NothingBlocksMeansAnswered(rd: Reader, fields: seq<Field>, p: Package, i: nat)
    requires i < |fields| && fields[i].required
    requires forall j :: 0 <= j < |fields| && fields[j].required ==>
      !MapOne(rd, fields[j], p).status.NeedsUserInput? && !MapOne(rd, fields[j], p).status.NeedsReview?
    ensures MapOne(rd, fields[i], p).status.Answered? && Grounded(rd, fields[i], p, MapOne(rd, fields[i], p))
  {
    NoInventedAnswers(rd, fields[i], p);
  }
}
