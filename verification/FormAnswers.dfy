/** Which record answers a form field, and when it does (app/execution/forms.py): the table behind `FormMapping`,
    stated on the records of the package. */
module FormAnswers {
  import opened Base
  import opened Options
  import opened FormMapping

  // ---------------------------------------------------- a text and a field type

  /** The text fits the field: always when it is typed in, otherwise when it selects something, is a number or a
      date; a combobox without options takes anything but a yes / no question answered by neither. */
  predicate TextFits(rd: Reader, f: Field, text: string) {
    match f.kind
    case TextField => true
    case TextArea => true
    case Email => true
    case Phone => true
    case Select => Selection(rd, f, text) != []
    case Radio => Selection(rd, f, text) != []
    case Checkbox => Selection(rd, f, text) != []
    case MultiSelect => Selection(rd, f, text) != []
    case YesNo => Selection(rd, f, text) != []
    case Combobox =>
      if f.options == [] then !rd.yesNo(rd.lx.normalize(f.name)) || rd.lx.polarity(text).Some?
      else Choose(rd.lx, Labels(f.options), text, CategoryOf(rd, f).Education?) !in {None, Some("")}
    case Numeric => rd.number(text).Some?
    case Date => rd.date(text).Some?
    case File => false
    case UnknownType => false
  }

  function Selection(rd: Reader, f: Field, text: string): seq<string> {
    Match(rd.lx, f.options, text, f.kind.MultiSelect?, f.kind.Checkbox?, CategoryOf(rd, f).Education?)
  }

  /** The row for a recorded text: answered exactly when it fits, and otherwise, if the field is required, the
      candidate's question with the text beside it. The origin is named either way. */
  ghost predicate FittedAs(rd: Reader, f: Field, o: Origin, m: Mapped) {
    var fits := TextFits(rd, f, o.text);
    && (m.status.Answered? <==> fits)
    && (!fits ==>
          m.status == if !f.required then Skipped
                      else if f.kind in {File, UnknownType} then NeedsReview else NeedsUserInput)
    && m.answer == (if fits && f.kind.Numeric? then rd.number(o.text) else if fits && f.kind.Date? then rd.date(o.text)
                    else Some(o.text))
    && m.selected == (if !fits then []
                      else if f.kind in {Select, Radio, Checkbox, MultiSelect, YesNo} then Selection(rd, f, o.text)
                      else if f.kind.Combobox? && f.options != []
                      then [Choose(rd.lx, Labels(f.options), o.text, CategoryOf(rd, f).Education?).value] else [])
    && OfField(rd, f, m) && m.artifact.None?
    && m.source == o.source && m.evidence == o.evidence && m.preparedId == o.preparedId
  }

  predicate OfField(rd: Reader, f: Field, m: Mapped) {
    m.key == rd.lx.normalize(f.name) && m.required == f.required && m.category == rd.classify(rd.lx.normalize(f.name))
  }

  lemma ChoiceTypedExactly(rd: Reader, f: Field, o: Origin)
    requires !o.source.User? && f.kind in {Select, Radio, Checkbox, MultiSelect, YesNo, Combobox}
    ensures FittedAs(rd, f, o, Typed(rd, f, o))
  {
  }

  /** For every field, text and origin. */
  lemma TypedExactly(rd: Reader, f: Field, o: Origin)
    requires !o.source.User?
    ensures FittedAs(rd, f, o, Typed(rd, f, o))
  {
    if f.kind in {Select, Radio, Checkbox, MultiSelect, YesNo, Combobox} {
      ChoiceTypedExactly(rd, f, o);
    }
  }

  // ------------------------------------------------------------- the records

  /** The last element that fits, if any does. */
  ghost predicate IsLast<T(!new)>(s: seq<T>, fits: T -> bool, r: Option<T>) {
    match r
    case None => forall i :: 0 <= i < |s| ==> !fits(s[i])
    case Some(x) => exists i :: 0 <= i < |s| && s[i] == x && fits(s[i]) && forall j :: i < j < |s| ==> !fits(s[j])
  }

  /** The first element that fits, if any does. */
  ghost predicate IsFirst<T(!new)>(s: seq<T>, fits: T -> bool, r: Option<T>) {
    match r
    case None => forall i :: 0 <= i < |s| ==> !fits(s[i])
    case Some(x) => exists i :: 0 <= i < |s| && s[i] == x && fits(s[i]) && forall j :: 0 <= j < i ==> !fits(s[j])
  }

  predicate Given(a: Prepared) {
    a.status.PreparedAnswered? && a.answer.Some? && a.answer.value != ""
  }

  /** Everything on record for one field: the last prepared answer and the last bank entry for these very words, the
      first given answer and the first bank entry of its category, and the first identity and education pattern that
      fit. Only a country may pick an option. */
  datatype Records = Records(prepared: Option<Prepared>, bank: Option<BankEntry>,
    categoryPrepared: Option<Prepared>, categoryBank: Option<BankEntry>,
    identity: Option<Pattern>, taught: Option<Pattern>)

  ghost predicate OnRecord(rd: Reader, f: Field, p: Package, rec: Records) {
    var key := rd.lx.normalize(f.name);
    var c := rd.classify(key);
    var picks := f.kind in {Select, Radio, Checkbox, MultiSelect, YesNo, Combobox};
    && IsLast(p.answers, (a: Prepared) => a.key == key, rec.prepared)
    && IsLast(p.bank, (b: BankEntry) => b.key == key, rec.bank)
    && IsFirst(p.answers, (a: Prepared) => a.category == c && Given(a), rec.categoryPrepared)
    && IsFirst(p.bank, (b: BankEntry) => b.category == c, rec.categoryBank)
    && IsFirst(rd.identity, (t: Pattern) => t.found(key) && (picks ==> t.fact == "country"), rec.identity)
    && IsFirst(rd.education, (t: Pattern) => t.found(key), rec.taught)
  }

  // ---------------------------------------------------- who answers, in order

  /** A recorded text, the preparation's own open question, or a question no shared answer may touch. */
  datatype Candidate = Recorded(origin: Origin) | OpenQuestion(preparedId: string) | Untouchable

  function When(c: bool, candidate: Candidate): seq<Candidate> {
    if c then [candidate] else []
  }

  function ProfileFact(p: Package, fact: string): seq<Candidate> {
    if fact in p.profile && p.profile[fact] != ""
    then [Recorded(Origin(p.profile[fact], Profile, ["profile:" + fact], None))] else []
  }

  function PreparedOrigin(a: Prepared, text: string): Candidate {
    Recorded(Origin(text, Preparation, a.evidence, Some(a.id)))
  }

  function BankOrigin(b: BankEntry, text: string): Candidate {
    Recorded(Origin(text, AnswerBank, b.evidence, None))
  }

  /** A link is answered by a link recorded for these very words. */
  function Links(rd: Reader, rec: Records): seq<Candidate> {
    (if rec.prepared.Some? && Given(rec.prepared.value)
     then When(rd.link(rd.strip(rec.prepared.value.answer.value)),
               PreparedOrigin(rec.prepared.value, rd.strip(rec.prepared.value.answer.value))) else [])
    + (if rec.bank.Some?
       then When(rd.link(rd.strip(rec.bank.value.answer)), BankOrigin(rec.bank.value, rd.strip(rec.bank.value.answer)))
       else [])
  }

  /** What was recorded for these very words: the prepared answer; the bank's, unless it answers a general "why us?"
      and was written for one employer; the preparation's open question. */
  function InTheseWords(rd: Reader, f: Field, p: Package, rec: Records): seq<Candidate> {
    var key := rd.lx.normalize(f.name);
    var written := rd.classify(key) in {WhyCompany, WhyRole} && rd.generic(key) && !rd.namesCompany(key, p.company);
    (if rec.prepared.Some? && Given(rec.prepared.value)
     then [PreparedOrigin(rec.prepared.value, rec.prepared.value.answer.value)] else [])
    + (if rec.bank.Some? then When(!written, BankOrigin(rec.bank.value, rec.bank.value.answer)) else [])
    + (if rec.prepared.Some?
       then When(rec.prepared.value.status.PreparedNeedsInput?, OpenQuestion(rec.prepared.value.id)) else [])
  }

  /** Authorisation for another country, earlier work at this employer, a consent that is typed or optional. */
  predicate NotToBeShared(rd: Reader, f: Field, p: Package) {
    var key := rd.lx.normalize(f.name);
    var company := rd.lx.normalize(p.company);
    match rd.classify(key)
    case WorkAuthorization => rd.namesOtherCountry(key, Fact(p, "country"))
    case Sponsorship => rd.namesOtherCountry(key, Fact(p, "country"))
    case PriorEmployment =>
      company != "" && exists i :: 0 <= i < |p.employers|
                                   && (var e := rd.lx.normalize(p.employers[i]);
                                       e != "" && (Within(e, company) || Within(company, e)))
    case Consent => !f.required || f.kind !in {Checkbox, Select, Radio, YesNo, Combobox}
    case _ => false
  }

  /** What was recorded for the category, if the question has one: the preparation's answer, then the bank's, unless
      the question is delicate, or asks about this employer, a degree, a conflict of interest or years with a topic. */
  function InTheCategory(rd: Reader, f: Field, p: Package, rec: Records): seq<Candidate> {
    var key := rd.lx.normalize(f.name);
    var c := rd.classify(key);
    if c.Other? then []
    else
      (if rec.categoryPrepared.Some? && rec.categoryPrepared.value.answer.Some?
       then [PreparedOrigin(rec.categoryPrepared.value, rec.categoryPrepared.value.answer.value)] else [])
      + When(NotToBeShared(rd, f, p), Untouchable)
      + (if rec.categoryBank.Some?
         then When(c !in {WhyCompany, WhyRole, Education, ConflictOfInterest} && !(c.ExperienceYears? && rd.topic(key)),
                   BankOrigin(rec.categoryBank.value, rec.categoryBank.value.answer))
         else [])
  }

  /** A recorded fact about the degree that is asked for, or about the place. */
  function InTheProfile(rd: Reader, f: Field, p: Package, rec: Records): seq<Candidate> {
    var c := rd.classify(rd.lx.normalize(f.name));
    (if c.Education? && rec.taught.Some? then ProfileFact(p, rec.taught.value.fact) else [])
    + (if c.Location? then ProfileFact(p, "location") else [])
  }

  predicate LeftToTheCandidate(rd: Reader, f: Field) {
    rd.classify(rd.lx.normalize(f.name)).Voluntary? || rd.secret(rd.lx.normalize(f.name))
  }

  /** Everything that could answer the field, best first. An identity field looks at its one fact only, a voluntary
      question or a secret at nothing, a link at links only. */
  function Candidates(rd: Reader, f: Field, p: Package, rec: Records): seq<Candidate> {
    if rec.identity.Some? then ProfileFact(p, rec.identity.value.fact)
    else if LeftToTheCandidate(rd, f) then []
    else if rd.url(rd.lx.normalize(f.name)) then Links(rd, rec)
    else InTheseWords(rd, f, p, rec) + (InTheCategory(rd, f, p, rec) + InTheProfile(rd, f, p, rec))
  }

  /** An empty row of the field's own: for the candidate, for review, or skipped when the field is optional. */
  ghost predicate LeftOpen(rd: Reader, f: Field, review: bool, m: Mapped) {
    m == Mapped(rd.lx.normalize(f.name), f.required, rd.classify(rd.lx.normalize(f.name)),
                if !f.required then Skipped else if review then NeedsReview else NeedsUserInput,
                NoSource, None, [], None, None, [])
  }

  /** A question about what is not a fact cannot be answered by asking the candidate for a record alone. */
  predicate ForReview(rd: Reader, f: Field, rec: Records) {
    var key := rd.lx.normalize(f.name);
    && rec.identity.None? && !LeftToTheCandidate(rd, f) && !rd.url(key)
    && rd.classify(key) in {AboutYou, WhyRole, WhyCompany, RelevantProject, ExperienceWith, Other}
  }

  /** What the first of a list of candidates makes of the field. */
  ghost predicate Decided(rd: Reader, f: Field, candidates: seq<Candidate>, m: Mapped)
    requires candidates != []
  {
    match candidates[0]
    case Recorded(o) => FittedAs(rd, f, o, m)
    case OpenQuestion(id) =>
      m == Mapped(rd.lx.normalize(f.name), f.required, rd.classify(rd.lx.normalize(f.name)), NeedsUserInput, NoSource,
                  None, [], None, Some(id), [])
    case Untouchable => LeftOpen(rd, f, false, m)
  }

  /** The first candidate decides, whether its text fits the field or not. */
  ghost predicate DecidedAs(rd: Reader, f: Field, p: Package, rec: Records, m: Mapped) {
    var candidates := Candidates(rd, f, p, rec);
    if candidates == [] then LeftOpen(rd, f, ForReview(rd, f, rec), m)
    else Decided(rd, f, candidates, m)
  }

  /** An upload takes the prepared resume or cover letter that it asks for; an optional autofill helper takes none. */
  ghost predicate UploadedAs(rd: Reader, f: Field, p: Package, m: Mapped) {
    var key := rd.lx.normalize(f.name);
    var fileKey := rd.fileKey(key, f.externalId);
    var helper := rd.autofill(fileKey) && !f.required;
    var resume := !helper && rd.resume(fileKey) && p.resume.Some?;
    var cover := !helper && !resume && rd.cover(fileKey) && p.coverLetter.Some?;
    if resume || cover then
      m == Mapped(key, f.required, rd.classify(key), Answered, Artifact, None, [],
                  Some(if resume then "RESUME" else "COVER_LETTER"), None,
                  if resume then p.resume.value else p.coverLetter.value)
    else LeftOpen(rd, f, false, m)
  }

  /** The row of a field, on the records of the package. */
  ghost predicate MappedAs(rd: Reader, f: Field, p: Package, m: Mapped) {
    match f.kind
    case UnknownType => LeftOpen(rd, f, true, m)
    case File => UploadedAs(rd, f, p, m)
    case _ => exists rec :: OnRecord(rd, f, p, rec) && DecidedAs(rd, f, p, rec, m)
  }

  // ----------------------------------------------------------------- proofs

  lemma LastOfMore<T(!new)>(s: seq<T>, fits: T -> bool, r: Option<T>)
    requires s != [] && IsLast(s[..|s| - 1], fits, r)
    ensures IsLast(s, fits, if fits(s[|s| - 1]) then Some(s[|s| - 1]) else r)
  {
    var n := |s| - 1;
    assert forall i :: 0 <= i < n ==> s[i] == s[..n][i];
  }

  lemma FirstOfMore<T(!new)>(s: seq<T>, fits: T -> bool, r: Option<T>)
    requires s != [] && IsFirst(s[..|s| - 1], fits, r)
    ensures IsFirst(s, fits, if r.Some? then r else if fits(s[|s| - 1]) then Some(s[|s| - 1]) else None)
  {
    var n := |s| - 1;
    assert forall i :: 0 <= i < n ==> s[i] == s[..n][i];
  }

  lemma FirstOfRest<T(!new)>(s: seq<T>, fits: T -> bool, r: Option<T>)
    requires s != [] && IsFirst(s[1..], fits, r)
    ensures IsFirst(s, fits, if fits(s[0]) then Some(s[0]) else r)
  {
    assert forall i :: 0 <= i < |s| - 1 ==> s[i + 1] == s[1..][i];
    if !fits(s[0]) && r.Some? {
      var i :| 0 <= i < |s[1..]| && s[1..][i] == r.value && fits(s[1..][i])
        && forall j :: 0 <= j < i ==> !fits(s[1..][j]);
      assert s[i + 1] == r.value;
      forall j | 0 <= j < i + 1 ensures !fits(s[j]) {
        if j > 0 { assert s[j] == s[1..][j - 1]; }
      }
    }
  }

  lemma {:induction false} PreparedForIsLast(answers: seq<Prepared>, key: string)
    ensures IsLast(answers, (a: Prepared) => a.key == key, PreparedFor(answers, key))
  {
    if answers != [] {
      PreparedForIsLast(answers[..|answers| - 1], key);
      LastOfMore(answers, (a: Prepared) => a.key == key, PreparedFor(answers[..|answers| - 1], key));
    }
  }

  lemma {:induction false} BankForIsLast(bank: seq<BankEntry>, key: string)
    ensures IsLast(bank, (b: BankEntry) => b.key == key, BankFor(bank, key))
  {
    if bank != [] {
      BankForIsLast(bank[..|bank| - 1], key);
      LastOfMore(bank, (b: BankEntry) => b.key == key, BankFor(bank[..|bank| - 1], key));
    }
  }

  lemma {:induction false} PreparedInIsFirst(answers: seq<Prepared>, c: Category)
    ensures IsFirst(answers, (a: Prepared) => a.category == c && Given(a), PreparedIn(answers, c))
  {
    if answers != [] {
      PreparedInIsFirst(answers[..|answers| - 1], c);
      FirstOfMore(answers, (a: Prepared) => a.category == c && Given(a), PreparedIn(answers[..|answers| - 1], c));
    }
  }

  lemma {:induction false} BankInIsFirst(bank: seq<BankEntry>, c: Category)
    ensures IsFirst(bank, (b: BankEntry) => b.category == c, BankIn(bank, c))
  {
    if bank != [] {
      BankInIsFirst(bank[..|bank| - 1], c);
      FirstOfMore(bank, (b: BankEntry) => b.category == c, BankIn(bank[..|bank| - 1], c));
    }
  }

  lemma {:induction false} IdentityIsFirst(patterns: seq<Pattern>, key: string, picks: bool)
    returns (t: Option<Pattern>)
    ensures IsFirst(patterns, (t: Pattern) => t.found(key) && (picks ==> t.fact == "country"), t)
    ensures IdentityFact(patterns, key, picks) == if t.Some? then Some(t.value.fact) else None
  {
    t := None;
    if patterns != [] {
      var fits := (t: Pattern) => t.found(key) && (picks ==> t.fact == "country");
      var rest := IdentityIsFirst(patterns[1..], key, picks);
      FirstOfRest(patterns, fits, rest);
      t := if fits(patterns[0]) then Some(patterns[0]) else rest;
    }
  }

  lemma {:induction false} EducationIsFirst(patterns: seq<Pattern>, key: string) returns (t: Option<Pattern>)
    ensures IsFirst(patterns, (t: Pattern) => t.found(key), t)
    ensures EducationFact(patterns, key) == if t.Some? then Some(t.value.fact) else None
  {
    t := None;
    if patterns != [] {
      var fits := (t: Pattern) => t.found(key);
      var rest := EducationIsFirst(patterns[1..], key);
      FirstOfRest(patterns, fits, rest);
      t := if fits(patterns[0]) then Some(patterns[0]) else rest;
    }
  }

  /** The records that the lookups of `map_fields` find. */
  lemma RecordsOf(rd: Reader, f: Field, p: Package) returns (rec: Records)
    ensures OnRecord(rd, f, p, rec)
    ensures var found := FoundFor(rd, f, p);
      && rec.prepared == found.prepared && rec.bank == found.bank
      && rec.categoryPrepared == found.preparedByCategory && rec.categoryBank == found.bankByCategory
    ensures var key := rd.lx.normalize(f.name);
      && (IdentityFact(rd.identity, key, ChoiceType(f.kind) || f.kind.Combobox?)
          == if rec.identity.Some? then Some(rec.identity.value.fact) else None)
      && EducationFact(rd.education, key) == if rec.taught.Some? then Some(rec.taught.value.fact) else None
  {
    var key := rd.lx.normalize(f.name);
    var found := FoundFor(rd, f, p);
    PreparedForIsLast(p.answers, key);
    BankForIsLast(p.bank, key);
    PreparedInIsFirst(p.answers, rd.classify(key));
    BankInIsFirst(p.bank, rd.classify(key));
    var picks := ChoiceType(f.kind) || f.kind.Combobox?;
    assert picks == (f.kind in {Select, Radio, Checkbox, MultiSelect, YesNo, Combobox});
    var identity := IdentityIsFirst(rd.identity, key, picks);
    var taught := EducationIsFirst(rd.education, key);
    rec := Records(found.prepared, found.bank, found.preparedByCategory, found.bankByCategory, identity, taught);
    SameTests(rd, key, picks, f.kind in {Select, Radio, Checkbox, MultiSelect, YesNo, Combobox}, identity);
  }

  lemma SameTests(rd: Reader, key: string, picks: bool, picks': bool, t: Option<Pattern>)
    requires picks == picks' && IsFirst(rd.identity, (t: Pattern) => t.found(key) && (picks ==> t.fact == "country"), t)
    ensures IsFirst(rd.identity, (t: Pattern) => t.found(key) && (picks' ==> t.fact == "country"), t)
  {
  }

  predicate Matches(rec: Records, found: Found) {
    && rec.prepared == found.prepared && rec.bank == found.bank
    && rec.categoryPrepared == found.preparedByCategory && rec.categoryBank == found.bankByCategory
  }

  lemma LinkDecided(rd: Reader, f: Field, found: Found, rec: Records)
    requires Matches(rec, found)
    ensures var m, links := MapLink(rd, f, found), Links(rd, rec);
      if links == [] then LeftOpen(rd, f, false, m) else Decided(rd, f, links, m)
  {
    var a, b := found.prepared, found.bank;
    if a.Some? && Usable(a.value) && rd.link(rd.strip(a.value.answer.value)) {
      TypedExactly(rd, f, OfPrepared(a.value, rd.strip(a.value.answer.value)));
    } else if b.Some? && rd.link(rd.strip(b.value.answer)) {
      TypedExactly(rd, f, OfBank(b.value, rd.strip(b.value.answer)));
    }
  }

  lemma ExactDecided(rd: Reader, f: Field, p: Package, found: Found, rec: Records)
    requires Matches(rec, found)
    ensures var m, own := MapExact(rd, f, p, found), InTheseWords(rd, f, p, rec);
      (m.None? <==> own == []) && (m.Some? ==> Decided(rd, f, own, m.value))
  {
    var a, b := found.prepared, found.bank;
    if a.Some? && Usable(a.value) {
      TypedExactly(rd, f, OfPrepared(a.value, a.value.answer.value));
    } else if b.Some? {
      TypedExactly(rd, f, OfBank(b.value, b.value.answer));
    }
  }

  lemma GuardedExactly(rd: Reader, f: Field, p: Package)
    ensures var g := Guard(rd, f, p);
      (g.Some? <==> NotToBeShared(rd, f, p)) && (g.Some? ==> LeftOpen(rd, f, false, g.value))
  {
  }

  lemma CategoryDecided(rd: Reader, f: Field, p: Package, found: Found, rec: Records)
    requires Matches(rec, found) && (found.preparedByCategory.Some? ==> Usable(found.preparedByCategory.value))
    ensures var m, shared := MapCategory(rd, f, p, found), InTheCategory(rd, f, p, rec);
      (m.None? <==> shared == []) && (m.Some? ==> Decided(rd, f, shared, m.value))
  {
    GuardedExactly(rd, f, p);
    var a, b := found.preparedByCategory, found.bankByCategory;
    if a.Some? {
      TypedExactly(rd, f, OfPrepared(a.value, a.value.answer.value));
    } else if b.Some? {
      TypedExactly(rd, f, OfBank(b.value, b.value.answer));
    }
  }

  lemma FactDecided(rd: Reader, f: Field, p: Package, rec: Records)
    requires EducationFact(rd.education, rd.lx.normalize(f.name))
             == if rec.taught.Some? then Some(rec.taught.value.fact) else None
    ensures var m, facts := MapFact(rd, f, p), InTheProfile(rd, f, p, rec);
      var fiction := CategoryOf(rd, f) in {AboutYou, WhyRole, WhyCompany, RelevantProject, ExperienceWith, Other};
      if facts == [] then LeftOpen(rd, f, fiction, m)
      else Decided(rd, f, facts, m)
  {
    if CategoryOf(rd, f).Education? {
      if rec.taught.Some? && Fact(p, rec.taught.value.fact).Some? {
        TypedExactly(rd, f, OfFact(rec.taught.value.fact, Fact(p, rec.taught.value.fact).value));
      }
    } else if CategoryOf(rd, f).Location? {
      if Fact(p, "location").Some? {
        TypedExactly(rd, f, OfFact("location", Fact(p, "location").value));
      }
    }
  }

  lemma FirstOfBoth(s: seq<Candidate>, t: seq<Candidate>)
    ensures if s == [] then s + t == t else s + t != [] && (s + t)[0] == s[0]
  {
  }

  lemma WordsDecided(rd: Reader, f: Field, p: Package, rec: Records)
    requires !f.kind.UnknownType? && !f.kind.File? && rec.identity.None? && !LeftToTheCandidate(rd, f)
    requires !rd.url(rd.lx.normalize(f.name)) && Matches(rec, FoundFor(rd, f, p))
    requires IdentityFact(rd.identity, rd.lx.normalize(f.name), ChoiceType(f.kind) || f.kind.Combobox?).None?
    requires EducationFact(rd.education, rd.lx.normalize(f.name))
             == if rec.taught.Some? then Some(rec.taught.value.fact) else None
    ensures DecidedAs(rd, f, p, rec, MapOne(rd, f, p))
  {
    var found := FoundFor(rd, f, p);
    ExactDecided(rd, f, p, found, rec);
    CategoryDecided(rd, f, p, found, rec);
    FactDecided(rd, f, p, rec);
    var own, shared, facts := InTheseWords(rd, f, p, rec), InTheCategory(rd, f, p, rec), InTheProfile(rd, f, p, rec);
    FirstOfBoth(own, shared + facts);
    FirstOfBoth(shared, facts);
  }

  lemma IdentityDecided(rd: Reader, f: Field, p: Package, rec: Records)
    requires !f.kind.UnknownType? && !f.kind.File? && rec.identity.Some?
    requires IdentityFact(rd.identity, rd.lx.normalize(f.name), ChoiceType(f.kind) || f.kind.Combobox?)
             == Some(rec.identity.value.fact)
    ensures DecidedAs(rd, f, p, rec, MapOne(rd, f, p))
  {
    var fact := rec.identity.value.fact;
    if Fact(p, fact).Some? {
      TypedExactly(rd, f, OfFact(fact, Fact(p, fact).value));
    }
  }

  /** `map_fields` gives each field the row that the records of the package call for. */
  lemma MappedExactly(rd: Reader, f: Field, p: Package)
    ensures MappedAs(rd, f, p, MapOne(rd, f, p))
  {
    if !f.kind.UnknownType? && !f.kind.File? {
      var rec := RecordsOf(rd, f, p);
      var key := rd.lx.normalize(f.name);
      if rec.identity.Some? {
        IdentityDecided(rd, f, p, rec);
      } else if LeftToTheCandidate(rd, f) {
      } else if rd.url(key) {
        LinkDecided(rd, f, FoundFor(rd, f, p), rec);
      } else {
        WordsDecided(rd, f, p, rec);
      }
      assert DecidedAs(rd, f, p, rec, MapOne(rd, f, p));
    }
  }

  // ---------------------------------------------------------- as it is written

  function Get<K, V>(m: map<K, V>, k: K): Option<V> {
    if k in m then Some(m[k]) else None
  }

  method IndexPrepared(answers: seq<Prepared>)
    returns (byKey: map<string, Prepared>, byCategory: map<Category, Prepared>)
    ensures forall k: string :: Get(byKey, k) == PreparedFor(answers, k)
    ensures forall c: Category :: Get(byCategory, c) == PreparedIn(answers, c)
  {
    byKey, byCategory := map[], map[];
    for i := 0 to |answers|
      invariant forall k: string :: Get(byKey, k) == PreparedFor(answers[..i], k)
      invariant forall c: Category :: Get(byCategory, c) == PreparedIn(answers[..i], c)
    {
      var a := answers[i];
      assert answers[..i + 1][..i] == answers[..i];
      byKey := byKey[a.key := a];
      if a.category !in byCategory && Usable(a) {
        byCategory := byCategory[a.category := a];
      }
    }
    assert answers[..|answers|] == answers;
  }

  method IndexBank(bank: seq<BankEntry>) returns (byKey: map<string, BankEntry>, byCategory: map<Category, BankEntry>)
    ensures forall k: string :: Get(byKey, k) == BankFor(bank, k)
    ensures forall c: Category :: Get(byCategory, c) == BankIn(bank, c)
  {
    byKey, byCategory := map[], map[];
    for i := 0 to |bank|
      invariant forall k: string :: Get(byKey, k) == BankFor(bank[..i], k)
      invariant forall c: Category :: Get(byCategory, c) == BankIn(bank[..i], c)
    {
      var b := bank[i];
      assert bank[..i + 1][..i] == bank[..i];
      byKey := byKey[b.key := b];
      if b.category !in byCategory {
        byCategory := byCategory[b.category := b];
      }
    }
    assert bank[..|bank|] == bank;
  }

  lemma AllMapped(rd: Reader, fields: seq<Field>, p: Package, answers: seq<Mapped>)
    requires |answers| == |fields| && forall i :: 0 <= i < |fields| ==> answers[i] == MapOne(rd, fields[i], p)
    ensures forall i :: 0 <= i < |fields| ==> MappedAs(rd, fields[i], p, answers[i])
  {
    forall i | 0 <= i < |fields| ensures MappedAs(rd, fields[i], p, answers[i]) {
      MappedExactly(rd, fields[i], p);
    }
  }

  method MapFields(rd: Reader, fields: seq<Field>, p: Package) returns (answers: seq<Mapped>)
    ensures answers == MapAll(rd, fields, p)
    ensures forall i :: 0 <= i < |fields| ==> MappedAs(rd, fields[i], p, answers[i])
  {
    var prepared, preparedByCategory := IndexPrepared(p.answers);
    var bank, bankByCategory := IndexBank(p.bank);
    answers := [];
    for i := 0 to |fields|
      invariant |answers| == i && forall j :: 0 <= j < i ==> answers[j] == MapOne(rd, fields[j], p)
    {
      var key := rd.lx.normalize(fields[i].name);
      var category := rd.classify(key);
      var found := Found(Get(prepared, key), Get(bank, key), Get(preparedByCategory, category),
                         Get(bankByCategory, category));
      answers := answers + [MapWith(rd, fields[i], p, found)];
    }
    AllMapped(rd, fields, p, answers);
  }
}
