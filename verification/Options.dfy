/** Option choice in forms: `choose_option` and `_match_options` of app/execution/forms.py. Text
    normalisation, yes / no polarity, whole-word search and degree levels are the functions of a `Lexicon`. */
module Options {
  import opened Base

  datatype Lexicon = Lexicon(
    normalize: string -> string,
    polarity: string -> Option<bool>,
    word: (string, string) -> bool,
    degree: string -> Option<string>)

  // -------------------------------------------------------------------- text

  predicate OccursAt(part: string, text: string, i: int) {
    0 <= i <= |text| - |part| && text[i..i + |part|] == part
  }

  predicate Within(part: string, text: string) {
    exists i :: 0 <= i <= |text| && OccursAt(part, text, i)
  }

  function Split(text: string): seq<string> {
    if text == "" then [""]
    else
      var rest := Split(text[1..]);
      if text[0] == ',' then [""] + rest else [[text[0]] + rest[0]] + rest[1..]
  }

  function Joined(parts: seq<string>): string {
    if parts == [] then "" else if |parts| == 1 then parts[0] else parts[0] + " " + Joined(parts[1..])
  }

  /** The normalised, non-empty parts of "City, State, Country". */
  function Parts(lx: Lexicon, pieces: seq<string>): seq<string> {
    if pieces == [] then []
    else
      var part := lx.normalize(pieces[0]);
      (if part != "" then [part] else []) + Parts(lx, pieces[1..])
  }

  // ------------------------------------------------------------------- choice

  /** The tests of the stages, as questions about one label. */
  datatype Test =
    | Exact(wanted: string) | Polarity(yes: bool) | AllParts(parts: seq<string>) | Tight(parts: seq<string>)
    | Overlap(wanted: string) | Level(level: string)

  predicate Passes(lx: Lexicon, t: Test, option: string) {
    var n := lx.normalize(option);
    match t
    case Exact(wanted) => n == wanted
    case Polarity(yes) => lx.polarity(n) == Some(yes)
    case AllParts(parts) => forall i :: 0 <= i < |parts| ==> lx.word(parts[i], n)
    case Tight(parts) => (forall i :: 0 <= i < |parts| ==> lx.word(parts[i], n)) && n == Joined(parts)
    case Overlap(wanted) => n != "" && (Within(n, wanted) || Within(wanted, n))
    case Level(level) => Within(level, n)
  }

  function Hits(lx: Lexicon, t: Test, labels: seq<string>): seq<string> {
    if labels == [] then []
    else
      var front := Hits(lx, t, labels[..|labels| - 1]);
      if Passes(lx, t, labels[|labels| - 1]) then front + [labels[|labels| - 1]] else front
  }

  function Sole(hits: seq<string>): Option<string> {
    if |hits| == 1 then Some(hits[0]) else None
  }

  function Else(a: Option<string>, b: Option<string>): Option<string> {
    if a.Some? then a else b
  }

  /** `choose_option`; `education` says whether the question is about education. */
  function Choose(lx: Lexicon, labels: seq<string>, text: string, education: bool): Option<string> {
    var wanted := lx.normalize(text);
    if wanted == "" then None
    else Else(Sole(Hits(lx, Exact(wanted), labels)),
              Else(ByPolarity(lx, labels, wanted), ByPlace(lx, labels, text, wanted, education)))
  }

  function ByPolarity(lx: Lexicon, labels: seq<string>, wanted: string): Option<string> {
    var polarity := lx.polarity(wanted);
    if polarity.Some? then Sole(Hits(lx, Polarity(polarity.value), labels)) else None
  }

  /** Several places that hold every part of the answer end the search, unless one is the answer itself. */
  function ByPlace(lx: Lexicon, labels: seq<string>, text: string, wanted: string, education: bool): Option<string> {
    var parts := Parts(lx, Split(text));
    if |parts| > 1 && Hits(lx, AllParts(parts), labels) != []
    then Else(Sole(Hits(lx, AllParts(parts), labels)), Sole(Hits(lx, Tight(parts), labels)))
    else Else(Sole(Hits(lx, Overlap(wanted), labels)), ByLevel(lx, labels, wanted, education))
  }

  function ByLevel(lx: Lexicon, labels: seq<string>, wanted: string, education: bool): Option<string> {
    var level := lx.degree(wanted);
    if education && level.Some? then Sole(Hits(lx, Level(level.value), labels)) else None
  }

  // -------------------------------------------------------------- what it means

  /** A stage sees labels only through how often each one occurs. */
  lemma {:induction false} HitsCount(lx: Lexicon, t: Test, labels: seq<string>, x: string)
    ensures multiset(Hits(lx, t, labels))[x] == if Passes(lx, t, x) then multiset(labels)[x] else 0
  {
    if labels != [] {
      var n := |labels| - 1;
      HitsCount(lx, t, labels[..n], x);
      assert labels == labels[..n] + [labels[n]];
    }
  }

  /** Two lists of labels look alike to a stage. */
  ghost predicate Alike(lx: Lexicon, t: Test, labels: seq<string>, labels': seq<string>) {
    multiset(Hits(lx, t, labels)) == multiset(Hits(lx, t, labels'))
  }

  lemma SoleAlike(hits: seq<string>, hits': seq<string>)
    requires multiset(hits) == multiset(hits')
    ensures Sole(hits) == Sole(hits') && (hits == [] <==> hits' == [])
  {
    assert |hits| == |multiset(hits)| == |hits'|;
    if |hits| == 1 {
      assert hits[0] in multiset(hits');
    }
  }

  /** The tests `choose_option` may apply to an answer. */
  predicate Asked(lx: Lexicon, text: string, education: bool, t: Test) {
    var wanted := lx.normalize(text);
    match t
    case Exact(w) => w == wanted
    case Polarity(yes) => lx.polarity(wanted) == Some(yes)
    case AllParts(parts) => parts == Parts(lx, Split(text)) && |parts| > 1
    case Tight(parts) => parts == Parts(lx, Split(text)) && |parts| > 1
    case Overlap(w) => w == wanted
    case Level(level) => education && lx.degree(wanted) == Some(level)
  }

  function Rank(t: Test): nat {
    match t
    case Exact(_) => 0
    case Polarity(_) => 1
    case AllParts(_) => 2
    case Tight(_) => 3
    case Overlap(_) => 4
    case Level(_) => 5
  }

  lemma ChooseAlike(lx: Lexicon, labels: seq<string>, labels': seq<string>, text: string, education: bool)
    requires forall t: Test :: Asked(lx, text, education, t) ==> Alike(lx, t, labels, labels')
    ensures Choose(lx, labels, text, education) == Choose(lx, labels', text, education)
  {
    var wanted := lx.normalize(text);
    var parts := Parts(lx, Split(text));
    assert Asked(lx, text, education, Exact(wanted)) && Asked(lx, text, education, Overlap(wanted));
    SoleAlike(Hits(lx, Exact(wanted), labels), Hits(lx, Exact(wanted), labels'));
    SoleAlike(Hits(lx, Overlap(wanted), labels), Hits(lx, Overlap(wanted), labels'));
    if lx.polarity(wanted).Some? {
      var t := Polarity(lx.polarity(wanted).value);
      assert Asked(lx, text, education, t);
      SoleAlike(Hits(lx, t, labels), Hits(lx, t, labels'));
    }
    if |parts| > 1 {
      assert Asked(lx, text, education, AllParts(parts)) && Asked(lx, text, education, Tight(parts));
      SoleAlike(Hits(lx, AllParts(parts), labels), Hits(lx, AllParts(parts), labels'));
      SoleAlike(Hits(lx, Tight(parts), labels), Hits(lx, Tight(parts), labels'));
    }
    if education && lx.degree(wanted).Some? {
      var t := Level(lx.degree(wanted).value);
      assert Asked(lx, text, education, t);
      SoleAlike(Hits(lx, t, labels), Hits(lx, t, labels'));
    }
  }

  /** The order of the options does not matter. */
  lemma ChoiceIgnoresOrder(lx: Lexicon, labels: seq<string>, labels': seq<string>, text: string, education: bool)
    requires multiset(labels) == multiset(labels')
    ensures Choose(lx, labels, text, education) == Choose(lx, labels', text, education)
  {
    forall t: Test ensures Alike(lx, t, labels, labels') {
      forall x: string ensures multiset(Hits(lx, t, labels))[x] == multiset(Hits(lx, t, labels'))[x] {
        HitsCount(lx, t, labels, x);
        HitsCount(lx, t, labels', x);
      }
    }
    ChooseAlike(lx, labels, labels', text, education);
  }

  /** An option that no stage would look at does not matter, wherever it stands. */
  lemma ChoiceIgnoresIrrelevant(lx: Lexicon, labels: seq<string>, labels': seq<string>, extra: string, text: string,
                                education: bool)
    requires multiset(labels') == multiset(labels) + multiset{extra}
    requires forall t: Test :: Asked(lx, text, education, t) ==> !Passes(lx, t, extra)
    ensures Choose(lx, labels', text, education) == Choose(lx, labels, text, education)
  {
    forall t: Test | Asked(lx, text, education, t) ensures Alike(lx, t, labels', labels) {
      forall x: string ensures multiset(Hits(lx, t, labels'))[x] == multiset(Hits(lx, t, labels))[x] {
        HitsCount(lx, t, labels, x);
        HitsCount(lx, t, labels', x);
      }
    }
    ChooseAlike(lx, labels', labels, text, education);
  }

  lemma SoleOccursOnce(lx: Lexicon, t: Test, labels: seq<string>)
    ensures var s := Sole(Hits(lx, t, labels)); s.Some? ==> multiset(labels)[s.value] == 1 && Passes(lx, t, s.value)
  {
    var hits := Hits(lx, t, labels);
    if |hits| == 1 {
      assert hits == [hits[0]];
      assert multiset(hits) == multiset{hits[0]};
      HitsCount(lx, t, labels, hits[0]);
    }
  }

  /** The choice is unambiguous: the chosen label is offered exactly once, and it is the only offered label
      that passes some test the answer asks for. */
  lemma ChosenOccursOnce(lx: Lexicon, labels: seq<string>, text: string, education: bool) returns (t: Test)
    requires Choose(lx, labels, text, education).Some?
    ensures var chosen := Choose(lx, labels, text, education).value;
      && multiset(labels)[chosen] == 1
      && Asked(lx, text, education, t) && Passes(lx, t, chosen)
      && forall x :: x in labels && Passes(lx, t, x) ==> x == chosen
  {
    t := DecidingTest(lx, labels, text, education);
    SoleOccursOnce(lx, t, labels);
    var chosen := Choose(lx, labels, text, education).value;
    forall x | x in labels && Passes(lx, t, x) ensures x == chosen {
      HitsCount(lx, t, labels, x);
      assert x in multiset(labels);
      assert x in Hits(lx, t, labels);
    }
  }

  lemma HitsSomeLabel(lx: Lexicon, labels: seq<string>, t: Test)
    ensures Hits(lx, t, labels) != [] <==> exists y :: y in labels && Passes(lx, t, y)
  {
    var hits := Hits(lx, t, labels);
    if hits != [] {
      HitsCount(lx, t, labels, hits[0]);
      assert hits[0] in multiset(hits) && hits[0] in multiset(labels);
    }
    if y :| y in labels && Passes(lx, t, y) {
      HitsCount(lx, t, labels, y);
      assert y in multiset(labels) && y in multiset(hits);
    }
  }

  lemma DecidingTest(lx: Lexicon, labels: seq<string>, text: string, education: bool) returns (t: Test)
    requires Choose(lx, labels, text, education).Some?
    ensures Asked(lx, text, education, t) && Sole(Hits(lx, t, labels)) == Choose(lx, labels, text, education)
    ensures forall u :: Asked(lx, text, education, u) && Rank(u) < Rank(t) ==> Sole(Hits(lx, u, labels)).None?
    ensures var parts := Parts(lx, Split(text));
      Rank(t) > 3 ==> !(|parts| > 1 && Hits(lx, AllParts(parts), labels) != [])
  {
    var wanted := lx.normalize(text);
    var parts := Parts(lx, Split(text));
    HitsSomeLabel(lx, labels, Tight(parts));
    HitsSomeLabel(lx, labels, AllParts(parts));
    assert forall y :: Passes(lx, Tight(parts), y) ==> Passes(lx, AllParts(parts), y);
    if Sole(Hits(lx, Exact(wanted), labels)).Some? {
      t := Exact(wanted);
    } else if ByPolarity(lx, labels, wanted).Some? {
      t := Polarity(lx.polarity(wanted).value);
    } else if |parts| > 1 && Hits(lx, AllParts(parts), labels) != [] {
      t := if Sole(Hits(lx, AllParts(parts), labels)).Some? then AllParts(parts) else Tight(parts);
    } else if Sole(Hits(lx, Overlap(wanted), labels)).Some? {
      t := Overlap(wanted);
    } else {
      t := Level(lx.degree(wanted).value);
    }
  }

  /** The test singles out this label: it is offered once, passes, and no other offered label does. */
  ghost predicate SinglesOut(lx: Lexicon, labels: seq<string>, t: Test, x: string) {
    multiset(labels)[x] == 1 && Passes(lx, t, x) && forall y :: y in labels && Passes(lx, t, y) ==> y == x
  }

  /** The tests in their turn: several places that hold every part of the answer end the search. */
  ghost predicate InTurn(lx: Lexicon, labels: seq<string>, text: string, education: bool, t: Test) {
    && Asked(lx, text, education, t)
    && (t.Overlap? || t.Level? ==>
          var parts := Parts(lx, Split(text));
          !(|parts| > 1 && exists y :: y in labels && Passes(lx, AllParts(parts), y)))
  }

  /** The first test in turn that singles a label out, and that label. */
  ghost predicate FirstToSingleOut(lx: Lexicon, labels: seq<string>, text: string, education: bool, t: Test, x: string)
  {
    && InTurn(lx, labels, text, education, t) && SinglesOut(lx, labels, t, x)
    && forall u: Test, y: string :: InTurn(lx, labels, text, education, u) && SinglesOut(lx, labels, u, y) ==>
         Rank(t) <= Rank(u)
  }

  lemma SoleIsSingledOut(lx: Lexicon, t: Test, labels: seq<string>, x: string)
    ensures Sole(Hits(lx, t, labels)) == Some(x) <==> SinglesOut(lx, labels, t, x)
  {
    var hits := Hits(lx, t, labels);
    HitsCount(lx, t, labels, x);
    SoleOccursOnce(lx, t, labels);
    if Sole(hits) == Some(x) {
      forall y | y in labels && Passes(lx, t, y) ensures y == x {
        HitsCount(lx, t, labels, y);
        assert y in multiset(labels) && y in multiset(hits);
      }
    } else if SinglesOut(lx, labels, t, x) {
      assert x in multiset(hits);
      forall i | 0 <= i < |hits| ensures hits[i] == x {
        HitsCount(lx, t, labels, hits[i]);
        assert hits[i] in multiset(hits) && hits[i] in multiset(labels);
      }
      if |hits| > 1 {
        TwiceInSequence(hits, 0, 1);
      }
    }
  }

  /** A test in turn that singles a label out leaves `choose_option` no way to choose nothing. */
  lemma SomethingIsChosen(lx: Lexicon, labels: seq<string>, text: string, education: bool, u: Test, y: string)
    requires lx.normalize(text) != "" && InTurn(lx, labels, text, education, u) && SinglesOut(lx, labels, u, y)
    ensures Choose(lx, labels, text, education).Some?
  {
    var parts := Parts(lx, Split(text));
    SoleIsSingledOut(lx, u, labels, y);
    HitsSomeLabel(lx, labels, AllParts(parts));
    assert y in multiset(labels);
    match u
    case Exact(_) =>
    case Polarity(_) =>
    case AllParts(_) =>
    case Tight(_) => assert y in labels && Passes(lx, AllParts(parts), y);
    case Overlap(_) =>
    case Level(_) =>
  }

  /** The choice follows the first test in turn that singles a label out, and there is none exactly when no such
      test does, or the answer says nothing. */
  lemma ChosenExactly(lx: Lexicon, labels: seq<string>, text: string, education: bool, x: string)
    ensures Choose(lx, labels, text, education) == Some(x) <==>
      lx.normalize(text) != "" && exists t :: FirstToSingleOut(lx, labels, text, education, t, x)
  {
    forall u: Test, y: string | lx.normalize(text) != "" && InTurn(lx, labels, text, education, u)
      && SinglesOut(lx, labels, u, y)
      ensures Choose(lx, labels, text, education).Some?
    {
      SomethingIsChosen(lx, labels, text, education, u, y);
    }
    if Choose(lx, labels, text, education).Some? {
      var t := FirstDecides(lx, labels, text, education);
      forall u: Test, y: string | FirstToSingleOut(lx, labels, text, education, u, y)
        ensures Choose(lx, labels, text, education) == Some(y)
      {
        assert Rank(t) == Rank(u) && t == u;
      }
    }
  }

  lemma FirstDecides(lx: Lexicon, labels: seq<string>, text: string, education: bool) returns (t: Test)
    requires Choose(lx, labels, text, education).Some?
    ensures FirstToSingleOut(lx, labels, text, education, t, Choose(lx, labels, text, education).value)
  {
    t := DecidingTest(lx, labels, text, education);
    HitsSomeLabel(lx, labels, AllParts(Parts(lx, Split(text))));
    SoleIsSingledOut(lx, t, labels, Choose(lx, labels, text, education).value);
    forall u: Test, y: string | InTurn(lx, labels, text, education, u) && SinglesOut(lx, labels, u, y)
      ensures Rank(t) <= Rank(u)
    {
      SoleIsSingledOut(lx, u, labels, y);
    }
  }

  // --------------------------------------------------------- back to an option

  datatype Choice = Choice(name: string, value: Option<string>)

  function ValueOf(o: Choice): string {
    if o.value.Some? then o.value.value else o.name
  }

  function Labels(options: seq<Choice>): (r: seq<string>)
    ensures |r| == |options| && forall i :: 0 <= i < |options| ==> r[i] == options[i].name
  {
    if options == [] then [] else Labels(options[..|options| - 1]) + [options[|options| - 1].name]
  }

  function FirstNamed(options: seq<Choice>, name: string): (r: Option<nat>)
    ensures r.Some? ==> r.value < |options| && options[r.value].name == name && forall i :: 0 <= i < r.value ==>
      options[i].name != name
    ensures r.None? ==> forall i :: 0 <= i < |options| ==> options[i].name != name
  {
    if options == [] then None
    else
      var n := |options| - 1;
      var before := FirstNamed(options[..n], name);
      if before.Some? then before else if options[n].name == name then Some(n) else None
  }

  function Values(options: seq<Choice>, lx: Lexicon, t: Test): seq<string> {
    if options == [] then []
    else
      var o := options[|options| - 1];
      Values(options[..|options| - 1], lx, t) + if Passes(lx, t, o.name) then [ValueOf(o)] else []
  }

  predicate AnyPasses(options: seq<Choice>, lx: Lexicon, t: Test) {
    exists i :: 0 <= i < |options| && Passes(lx, t, options[i].name)
  }

  /** `_match_options`; `checkbox` says whether the field is a single checkbox type. */
  function Match(lx: Lexicon, options: seq<Choice>, text: string, multi: bool, checkbox: bool,
                 education: bool): seq<string> {
    if multi then
      var wanted := lx.normalize(text);
      if AnyPasses(options, lx, Exact(wanted)) then Values(options, lx, Exact(wanted))
      else Values(options, lx, Overlap(wanted))
    else if |options| == 1 && checkbox then
      if lx.polarity(text) == Some(true) then [ValueOf(options[0])] else []
    else
      var chosen := Choose(lx, Labels(options), text, education);
      if chosen.None? then []
      else
        var i := FirstNamed(options, chosen.value);
        if i.Some? then [ValueOf(options[i.value])] else []
  }

  lemma TwiceInSequence(s: seq<string>, i: nat, j: nat)
    requires i < j < |s| && s[i] == s[j]
    ensures multiset(s)[s[i]] >= 2
  {
    assert s == s[..j] + [s[j]] + s[j + 1..];
    assert s[i] in s[..j];
    assert multiset(s) == multiset(s[..j]) + multiset{s[j]} + multiset(s[j + 1..]);
  }

  /** A label that occurs once names one option. */
  lemma OnceNamesOne(options: seq<Choice>, name: string) returns (i: nat)
    requires multiset(Labels(options))[name] == 1
    ensures i < |options| && FirstNamed(options, name) == Some(i)
    ensures forall j :: 0 <= j < |options| && options[j].name == name ==> j == i
  {
    var labels := Labels(options);
    assert name in multiset(labels);
    var k :| 0 <= k < |labels| && labels[k] == name;
    assert options[k].name == name;
    i := FirstNamed(options, name).value;
    forall j | 0 <= j < |options| && options[j].name == name ensures j == i {
      if i < j {
        TwiceInSequence(labels, i, j);
      }
    }
  }

  /** The lookup from the chosen label back to an option always finds one, and there is no second. */
  lemma LookupIsWellDefined(lx: Lexicon, options: seq<Choice>, text: string, education: bool) returns (i: nat)
    requires Choose(lx, Labels(options), text, education).Some?
    ensures i < |options| && FirstNamed(options, Choose(lx, Labels(options), text, education).value) == Some(i)
    ensures forall j :: 0 <= j < |options| && options[j].name == options[i].name ==> j == i
    ensures Match(lx, options, text, false, false, education) == [ValueOf(options[i])]
  {
    var t := ChosenOccursOnce(lx, Labels(options), text, education);
    i := OnceNamesOne(options, Choose(lx, Labels(options), text, education).value);
  }

  /** What is selected is offered. */
  lemma {:induction false} ValuesAreOffered(options: seq<Choice>, lx: Lexicon, t: Test, v: string) returns (i: nat)
    requires v in Values(options, lx, t)
    ensures i < |options| && ValueOf(options[i]) == v && Passes(lx, t, options[i].name)
  {
    var n := |options| - 1;
    if v in Values(options[..n], lx, t) {
      i := ValuesAreOffered(options[..n], lx, t, v);
    } else {
      i := n;
    }
  }

  predicate Offered(options: seq<Choice>, v: string) {
    exists i :: 0 <= i < |options| && ValueOf(options[i]) == v
  }

  lemma MatchIsOffered(lx: Lexicon, options: seq<Choice>, text: string, multi: bool, checkbox: bool, education: bool)
    ensures forall v :: v in Match(lx, options, text, multi, checkbox, education) ==> Offered(options, v)
  {
    forall v | v in Match(lx, options, text, multi, checkbox, education) ensures Offered(options, v) {
      if multi {
        var wanted := lx.normalize(text);
        var t := if AnyPasses(options, lx, Exact(wanted)) then Exact(wanted) else Overlap(wanted);
        var i := ValuesAreOffered(options, lx, t, v);
      }
    }
  }

  // ----------------------------------------------- a multi-select answer of nothing

  /** The option says something the answer says: it is the answer, or one contains the other and neither is empty. */
  predicate Named(lx: Lexicon, wanted: string, o: Choice) {
    Passes(lx, Exact(wanted), o.name) || (wanted != "" && Passes(lx, Overlap(wanted), o.name))
  }

  /** The options a multi-select picks. */
  predicate Picked(lx: Lexicon, options: seq<Choice>, text: string, i: int) {
    var wanted := lx.normalize(text);
    && 0 <= i < |options|
    && (if AnyPasses(options, lx, Exact(wanted)) then Passes(lx, Exact(wanted), options[i].name)
          else Passes(lx, Overlap(wanted), options[i].name))
  }

  lemma NothingIsWithin(text: string)
    ensures Within("", text)
  {
    assert OccursAt("", text, 0);
  }

  /** A multi-select picks only options the answer names, exactly when the answer does not normalise to
      nothing or some option does too (or there are no options). Otherwise it ticks every box. */
  lemma MultiSelectNamesItsPicks(lx: Lexicon, options: seq<Choice>, text: string)
    ensures (forall i :: Picked(lx, options, text, i) ==> Named(lx, lx.normalize(text), options[i])) <==>
      (lx.normalize(text) != "" || options == [] || AnyPasses(options, lx, Exact("")))
    ensures lx.normalize(text) == "" && !AnyPasses(options, lx, Exact("")) ==> forall i :: 0 <= i < |options| ==>
      Picked(lx, options, text, i)
  {
    if lx.normalize(text) == "" && !AnyPasses(options, lx, Exact("")) {
      forall i | 0 <= i < |options| ensures Picked(lx, options, text, i) {
        assert !Passes(lx, Exact(""), options[i].name);
        NothingIsWithin(lx.normalize(options[i].name));
      }
      if options != [] {
        assert Picked(lx, options, text, 0) && !Named(lx, "", options[0]);
      }
    }
  }

  lemma {:induction false} ValuesHolds(options: seq<Choice>, lx: Lexicon, t: Test, i: nat)
    requires i < |options| && Passes(lx, t, options[i].name)
    ensures ValueOf(options[i]) in Values(options, lx, t)
  {
    var n := |options| - 1;
    if i < n {
      ValuesHolds(options[..n], lx, t, i);
    }
  }

  /** Exactly what is selected: of a multi-select the values of all options picked, of a single box its value when
      the answer is a yes, otherwise the value of the one option that carries the chosen label, if one is chosen. */
  lemma SelectedExactly(lx: Lexicon, options: seq<Choice>, text: string, multi: bool, checkbox: bool, education: bool)
    ensures var selected := Match(lx, options, text, multi, checkbox, education);
      var chosen := Choose(lx, Labels(options), text, education);
      if multi then
        forall v :: v in selected <==> exists i :: Picked(lx, options, text, i) && ValueOf(options[i]) == v
      else if checkbox && |options| == 1 then
        selected == if lx.polarity(text) == Some(true) then [ValueOf(options[0])] else []
      else if chosen.None? then selected == []
      else exists i :: 0 <= i < |options| && options[i].name == chosen.value && selected == [ValueOf(options[i])]
  {
    var wanted := lx.normalize(text);
    if multi {
      var t := if AnyPasses(options, lx, Exact(wanted)) then Exact(wanted) else Overlap(wanted);
      forall v | v in Values(options, lx, t)
        ensures exists i :: Picked(lx, options, text, i) && ValueOf(options[i]) == v
      {
        var i := ValuesAreOffered(options, lx, t, v);
        assert Picked(lx, options, text, i);
      }
      forall i | Picked(lx, options, text, i) ensures ValueOf(options[i]) in Values(options, lx, t) {
        ValuesHolds(options, lx, t, i);
      }
    } else if !(checkbox && |options| == 1) && Choose(lx, Labels(options), text, education).Some? {
      var i := LookupIsWellDefined(lx, options, text, education);
    }
  }
}
