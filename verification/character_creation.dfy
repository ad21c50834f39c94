/** The character-creation wizard of the player client
    (player_interface/src/screens/CharacterCreationScreen.tsx): the step
    navigation, the selection handlers, the review check and the submission
    guard.

    The wizard is modelled as pure transitions over its navigation and its
    choices. Loading the rules data, the request sent by `createCharacter`
    and the rendering are not part of the model. */
module CharacterCreation {
  import opened Wrappers
  import opened Text

  datatype Step =
    | Kingdom | Features | Origin | Childhood | ComingOfAge | Training | Devotion
    | School | Talent | Name | Review

  /** The step and the index into the eight features F1..F8. */
  datatype Nav = Nav(step: Step, featureStep: int)

  /** F1..F8 are chosen in the feature steps; F9 is chosen on the review step. */
  const FeatureCount := 8
  const LastFeature := FeatureCount - 1

  const Start := Nav(Kingdom, 0)

  /** The navigation states the wizard can reach: the feature index stays in
      0..7, is 0 while choosing the kingdom and 7 once past the features. */
  predicate Valid(n: Nav) {
    && 0 <= n.featureStep <= LastFeature
    && (n.step == Kingdom ==> n.featureStep == 0)
    && (n.step != Kingdom && n.step != Features ==> n.featureStep == LastFeature)
  }

  /** `handleNext`: kingdom, the eight features, the five background steps,
      school, talent, name, review; next on review does nothing. */
  function Next(n: Nav): (r: Nav)
    ensures Valid(n) ==> Valid(r)
  {
    match n.step
    case Kingdom => Nav(Features, 0)
    case Features => if n.featureStep < LastFeature then n.(featureStep := n.featureStep + 1) else n.(step := Origin)
    case Origin => n.(step := Childhood)
    case Childhood => n.(step := ComingOfAge)
    case ComingOfAge => n.(step := Training)
    case Training => n.(step := Devotion)
    case Devotion => n.(step := School)
    case School => n.(step := Talent)
    case Talent => n.(step := Name)
    case Name => n.(step := Review)
    case Review => n
  }

  /** `handleBack`: one step back; back on the kingdom step leaves the
      wizard (None). */
  function Back(n: Nav): (r: Option<Nav>)
    ensures r.None? <==> n.step == Kingdom
    ensures Valid(n) && r.Some? ==> Valid(r.value)
  {
    match n.step
    case Kingdom => None
    case Features => Some(if n.featureStep > 0 then n.(featureStep := n.featureStep - 1) else n.(step := Kingdom))
    case Origin => Some(Nav(Features, LastFeature))
    case Childhood => Some(n.(step := Origin))
    case ComingOfAge => Some(n.(step := Childhood))
    case Training => Some(n.(step := ComingOfAge))
    case Devotion => Some(n.(step := Training))
    case School => Some(n.(step := Devotion))
    case Talent => Some(n.(step := School))
    case Name => Some(n.(step := Talent))
    case Review => Some(n.(step := Name))
  }

  /** Back undoes next on every reachable step but the review. */
  lemma BackUndoesNext(n: Nav)
    requires Valid(n) && n.step != Review
    ensures Back(Next(n)) == Some(n)
  {
  }

  /** Next undoes back on every reachable step but the kingdom. */
  lemma NextUndoesBack(n: Nav)
    requires Valid(n) && n.step != Kingdom
    ensures Back(n).Some? && Next(Back(n).value) == n
  {
  }

  function NextTimes(n: Nav, k: nat): Nav
    decreases k
  {
    if k == 0 then n else NextTimes(Next(n), k - 1)
  }

  /** From the start, seventeen steps forward reach the review: one to the
      features, seven through F2..F8, and nine through origin to review. */
  lemma SeventeenStepsToReview()
    ensures NextTimes(Start, 17) == Nav(Review, LastFeature)
  {
    FeaturesToReview(0);
  }

  lemma {:induction false} FeaturesToReview(j: int)
    requires 0 <= j <= LastFeature
    decreases LastFeature - j
    ensures NextTimes(Nav(Features, j), 16 - j) == Nav(Review, LastFeature)
  {
    if j < LastFeature {
      FeaturesToReview(j + 1);
    } else {
      assert NextTimes(Nav(Name, 7), 1) == Nav(Review, 7);
      assert NextTimes(Nav(Talent, 7), 2) == Nav(Review, 7);
      assert NextTimes(Nav(School, 7), 3) == Nav(Review, 7);
      assert NextTimes(Nav(Devotion, 7), 4) == Nav(Review, 7);
      assert NextTimes(Nav(Training, 7), 5) == Nav(Review, 7);
      assert NextTimes(Nav(ComingOfAge, 7), 6) == Nav(Review, 7);
      assert NextTimes(Nav(Childhood, 7), 7) == Nav(Review, 7);
      assert NextTimes(Nav(Origin, 7), 8) == Nav(Review, 7);
    }
  }

  /** Further steps forward stay on the review. */
  lemma {:induction false} ReviewIsLast(k: nat)
    ensures NextTimes(Nav(Review, LastFeature), k) == Nav(Review, LastFeature)
  {
    if k > 0 {
      ReviewIsLast(k - 1);
    }
  }

  // ---------------------------------------------------------------------
  // Choices

  datatype FeatureChoice = FeatureChoice(featureId: string, choiceName: string)

  datatype Background = OriginPart | ChildhoodPart | ComingOfAgePart | TrainingPart | DevotionPart

  datatype Choices = Choices(
    kingdom: Option<string>, featureChoices: seq<FeatureChoice>,
    origin: Option<string>, childhood: Option<string>, comingOfAge: Option<string>,
    training: Option<string>, devotion: Option<string>,
    school: Option<string>, talent: Option<string>, name: string)

  const NoChoices := Choices(None, [], None, None, None, None, None, None, None, "")

  datatype Wizard = Wizard(nav: Nav, choices: Choices)

  /** Choosing a kingdom drops every feature choice made for the old one. */
  function SelectKingdom(w: Wizard, kingdom: string): (r: Wizard)
    ensures r.choices.kingdom == Some(kingdom) && r.choices.featureChoices == []
    ensures r.nav == Next(w.nav)
  {
    Wizard(Next(w.nav), w.choices.(kingdom := Some(kingdom), featureChoices := []))
  }

  /** The choices for features other than `featureId`, in order. */
  function Without(choices: seq<FeatureChoice>, featureId: string): (r: seq<FeatureChoice>)
    ensures forall c :: c in r <==> c in choices && c.featureId != featureId
    ensures |r| <= |choices|
  {
    if |choices| == 0 then []
    else
      assert forall c :: c in choices ==> c == choices[0] || c in choices[1..];
      var rest := Without(choices[1..], featureId);
      if choices[0].featureId != featureId then [choices[0]] + rest else rest
  }

  /** No feature has two choices. */
  predicate OnePerFeature(choices: seq<FeatureChoice>) {
    forall i, j :: 0 <= i < j < |choices| ==> choices[i].featureId != choices[j].featureId
  }

  /** `selectFeatureChoice`: the new choice replaces any earlier one for the
      same feature and goes last; F9, chosen on the review step, does not
      move the wizard. */
  function SelectFeatureChoice(w: Wizard, featureId: string, choiceName: string): (r: Wizard)
    ensures FeatureChoice(featureId, choiceName) in r.choices.featureChoices
    ensures forall c :: c in r.choices.featureChoices && c.featureId == featureId ==> c.choiceName == choiceName
    ensures forall c: FeatureChoice :: c.featureId != featureId ==> (c in r.choices.featureChoices <==> c in w.choices.featureChoices)
    ensures r.nav == if featureId == "F9" then w.nav else Next(w.nav)
    ensures |r.choices.featureChoices| > 0 && r.choices.featureChoices[|r.choices.featureChoices| - 1] == FeatureChoice(featureId, choiceName)
    ensures r.choices.featureChoices[..|r.choices.featureChoices| - 1] == Without(w.choices.featureChoices, featureId)
    ensures r.choices == w.choices.(featureChoices := r.choices.featureChoices)
  {
    var kept := Without(w.choices.featureChoices, featureId);
    Wizard(if featureId != "F9" then Next(w.nav) else w.nav,
           w.choices.(featureChoices := kept + [FeatureChoice(featureId, choiceName)]))
  }

  /** Replacing a choice keeps at most one choice per feature. */
  lemma SelectKeepsOnePerFeature(w: Wizard, featureId: string, choiceName: string)
    requires OnePerFeature(w.choices.featureChoices)
    ensures OnePerFeature(SelectFeatureChoice(w, featureId, choiceName).choices.featureChoices)
  {
    var kept := Without(w.choices.featureChoices, featureId);
    WithoutKeepsOnePerFeature(w.choices.featureChoices, featureId);
    var all := kept + [FeatureChoice(featureId, choiceName)];
    forall i, j | 0 <= i < j < |all| ensures all[i].featureId != all[j].featureId {
      if j == |all| - 1 {
        assert all[i] in kept;
      } else {
        assert all[i] == kept[i] && all[j] == kept[j];
      }
    }
  }

  lemma {:induction false} WithoutKeepsOnePerFeature(choices: seq<FeatureChoice>, featureId: string)
    requires OnePerFeature(choices)
    ensures OnePerFeature(Without(choices, featureId))
  {
    if |choices| > 0 {
      var tail := choices[1..];
      assert OnePerFeature(tail) by {
        forall i, j | 0 <= i < j < |tail| ensures tail[i].featureId != tail[j].featureId {
          assert tail[i] == choices[i + 1] && tail[j] == choices[j + 1];
        }
      }
      WithoutKeepsOnePerFeature(tail, featureId);
      var rest := Without(tail, featureId);
      if choices[0].featureId != featureId {
        var r := [choices[0]] + rest;
        forall i, j | 0 <= i < j < |r| ensures r[i].featureId != r[j].featureId {
          if i == 0 {
            assert r[j] in rest;
            assert r[j] in tail;
            var k :| 0 <= k < |tail| && tail[k] == r[j];
            assert choices[k + 1] == r[j];
          } else {
            assert r[i] == rest[i - 1] && r[j] == rest[j - 1];
          }
        }
      }
    }
  }

  /** The choice recorded for one background step. */
  function Chosen(c: Choices, part: Background): Option<string> {
    match part
    case OriginPart => c.origin
    case ChildhoodPart => c.childhood
    case ComingOfAgePart => c.comingOfAge
    case TrainingPart => c.training
    case DevotionPart => c.devotion
  }

  /** One of the five background steps: record the choice and move on. */
  function SelectBackground(w: Wizard, part: Background, choiceName: string): (r: Wizard)
    ensures r.nav == Next(w.nav) && r.choices.featureChoices == w.choices.featureChoices
    ensures Chosen(r.choices, part) == Some(choiceName)
    ensures forall p :: p != part ==> Chosen(r.choices, p) == Chosen(w.choices, p)
    ensures r.choices.kingdom == w.choices.kingdom && r.choices.school == w.choices.school
    ensures r.choices.talent == w.choices.talent && r.choices.name == w.choices.name
  {
    var c := w.choices;
    Wizard(Next(w.nav),
      match part
      case OriginPart => c.(origin := Some(choiceName))
      case ChildhoodPart => c.(childhood := Some(choiceName))
      case ComingOfAgePart => c.(comingOfAge := Some(choiceName))
      case TrainingPart => c.(training := Some(choiceName))
      case DevotionPart => c.(devotion := Some(choiceName)))
  }

  /** Choosing a school drops the talent chosen from the old one. */
  function SelectSchool(w: Wizard, school: string): (r: Wizard)
    ensures r.choices.school == Some(school) && r.choices.talent.None?
    ensures r.nav == Next(w.nav)
  {
    Wizard(Next(w.nav), w.choices.(school := Some(school), talent := None))
  }

  function SelectTalent(w: Wizard, talent: string): (r: Wizard)
    ensures r.choices.talent == Some(talent) && r.choices.school == w.choices.school
    ensures r.nav == Next(w.nav)
  {
    Wizard(Next(w.nav), w.choices.(talent := Some(talent)))
  }

  /** The name field edits the name only. */
  function SetName(w: Wizard, name: string): (r: Wizard)
    ensures r.nav == w.nav && r.choices.name == name
  {
    w.(choices := w.choices.(name := name))
  }

  // ---------------------------------------------------------------------
  // Review and submission

  /** JavaScript truthiness of an optional string: present and non-empty. */
  predicate Given(s: Option<string>) {
    s.Some? && s.value != ""
  }

  /** The F9 choice, if one was made. */
  function FindFeature(choices: seq<FeatureChoice>, featureId: string): (r: Option<FeatureChoice>)
    ensures r.Some? <==> exists c :: c in choices && c.featureId == featureId
    ensures r.Some? ==> r.value in choices && r.value.featureId == featureId
  {
    if |choices| == 0 then None
    else if choices[0].featureId == featureId then Some(choices[0])
    else
      assert forall c :: c in choices ==> c == choices[0] || c in choices[1..];
      FindFeature(choices[1..], featureId)
  }

  /** `isReviewComplete`: a kingdom, at least eight feature choices (an F9
      choice counts among them), an F9 choice, all five background choices,
      a school, a talent, and a name that is not blank. */
  predicate ReviewComplete(c: Choices) {
    && Given(c.kingdom)
    && |c.featureChoices| >= FeatureCount
    && FindFeature(c.featureChoices, "F9").Some?
    && Given(c.origin) && Given(c.childhood) && Given(c.comingOfAge) && Given(c.training) && Given(c.devotion)
    && Given(c.school) && Given(c.talent)
    && !IsBlank(c.name)
  }

  /** The creation request. */
  datatype CreateRequest = CreateRequest(
    name: string, kingdom: string, featureChoices: seq<FeatureChoice>,
    origin: string, childhood: string, comingOfAge: string, training: string, devotion: string,
    school: string, talent: string)

  /** `handleSubmit`: nothing is sent unless the review is complete; then the
      request carries every choice as made. */
  function Submit(c: Choices): (r: Option<CreateRequest>)
    ensures r.Some? <==> ReviewComplete(c)
    ensures r.Some? ==>
              && Some(r.value.kingdom) == c.kingdom && r.value.name == c.name
              && r.value.featureChoices == c.featureChoices
              && Some(r.value.school) == c.school && Some(r.value.talent) == c.talent
              && Some(r.value.origin) == c.origin && Some(r.value.childhood) == c.childhood
              && Some(r.value.comingOfAge) == c.comingOfAge && Some(r.value.training) == c.training
              && Some(r.value.devotion) == c.devotion
              && exists f :: f in r.value.featureChoices && f.featureId == "F9"
  {
    if !ReviewComplete(c) then None
    else
      Some(CreateRequest(c.name, c.kingdom.value, c.featureChoices, c.origin.value, c.childhood.value,
                         c.comingOfAge.value, c.training.value, c.devotion.value, c.school.value, c.talent.value))
  }

  /** The count of feature choices includes F9, so seven of F1..F8 with F9
      pass the count; the wizard itself only reaches the review after all
      eight feature steps. */
  lemma F9CountsTowardEight(c: Choices)
    requires |c.featureChoices| == 8 && c.featureChoices[7] == FeatureChoice("F9", "Capstone")
    requires Given(c.kingdom) && Given(c.origin) && Given(c.childhood) && Given(c.comingOfAge)
    requires Given(c.training) && Given(c.devotion) && Given(c.school) && Given(c.talent) && c.name == "Ayla"
    ensures Submit(c).Some?
  {
    assert c.featureChoices[7] in c.featureChoices;
    assert c.name[0] == 'A' && !IsSpace('A');
  }

  /** A new school always sends the wizard back to an unchosen talent, so a
      submission needs a talent chosen after the school. */
  lemma SchoolThenSubmitNeedsTalent(w: Wizard, school: string)
    ensures Submit(SelectSchool(w, school).choices).None?
  {
  }
}
