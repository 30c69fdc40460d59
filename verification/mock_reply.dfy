/** The canned tutor reply used when no AI client is configured
    (`AILesson._generate_mock_response` in app.py): an ordered,
    first-match classifier over the learner's answer text. */
module MockReply {
  import opened Maybe
  import opened Text

  /** Which canned reply was chosen. `Default` carries the lesson step that
      selects among the four fallback texts. */
  datatype Reply =
    | Staff        // the learner picked the staff role
    | Customer     // the learner picked the customer role
    | Treatment    // "treatment" vocabulary answer
    | Damage       // "damage" vocabulary answer
    | Perm         // パーマ vocabulary answer
    | IfYouFeel    // used the "If you feel like..." phrase
    | Default(step: nat)

  /** The text of each reply, as the source returns it. */
  function Message(r: Reply): string {
    match r
    case Staff => "スタッフ役を選択しました。では、お客様の発言に応答してみましょう。"
    case Customer => "お客様役を選択しました。では、スタッフの発言に応答してみましょう。"
    case Treatment => "正解です！「treatment」が「トリートメント」の英語表現です。"
    case Damage => "正解です！「damage」が「ダメージ」の英語表現です。"
    case Perm => "正解です！「perm」の日本語は「パーマ」です。"
    case IfYouFeel => "良い文章です！「If you feel like...」の表現を上手に使えています。"
    case Default(step) =>
      if step == 0 then "次のステップに進みましょう！"
      else if step == 1 then "役割を選んでいただきありがとうございます。"
      else if step == 2 then "英語での応答、よく頑張りました！次に進みましょう。"
      else "ご回答ありがとうございます。次に進みましょう。"
  }

  /** The source's if-chain, test by test and in the source's order. */
  function Classify(text: string, step: nat): Reply {
    if Contains(text, "1") || Contains(text, "スタッフ") then Staff
    else if Contains(text, "2") || Contains(text, "客") || Contains(text, "お客") then Customer
    else if Contains(Lower(text), "treatment") || "2" == text then Treatment
    else if Contains(Lower(text), "damage") || "3" == text then Damage
    else if Contains(text, "パーマ") || "3" == text then Perm
    else if Contains(Lower(text), "if you feel") then IfYouFeel
    else Default(step)
  }

  /** The mock reply text for an answer given at `step`. */
  function Respond(text: string, step: nat): string {
    Message(Classify(text, step))
  }

  // ---------------------------------------------------------------------
  // Reference definition: the same rules as data, read by a generic
  // first-match interpreter.

  /** One alternative of a rule. */
  datatype Test =
    | Has(needle: string)       // `needle in text`
    | HasLower(needle: string)  // `needle in text.lower()`
    | Is(exact: string)         // `exact == text`

  predicate Passes(t: Test, text: string) {
    match t
    case Has(n) => Contains(text, n)
    case HasLower(n) => Contains(Lower(text), n)
    case Is(e) => e == text
  }

  /** A rule fires when any of its alternatives passes. */
  datatype Rule = Rule(anyOf: seq<Test>, reply: Reply)

  predicate AnyPasses(tests: seq<Test>, text: string) {
    |tests| > 0 && (Passes(tests[0], text) || AnyPasses(tests[1..], text))
  }

  predicate Fires(rule: Rule, text: string) {
    AnyPasses(rule.anyOf, text)
  }

  const Rules: seq<Rule> := [
    Rule([Has("1"), Has("スタッフ")], Staff),
    Rule([Has("2"), Has("客"), Has("お客")], Customer),
    Rule([HasLower("treatment"), Is("2")], Treatment),
    Rule([HasLower("damage"), Is("3")], Damage),
    Rule([Has("パーマ"), Is("3")], Perm),
    Rule([HasLower("if you feel")], IfYouFeel)
  ]

  /** The position of the first rule that fires, if any. */
  function FirstFiring(rules: seq<Rule>, text: string): (r: Option<nat>)
    ensures r.Some? ==> r.value < |rules| && Fires(rules[r.value], text)
    ensures r.Some? ==> forall j :: 0 <= j < r.value ==> !Fires(rules[j], text)
    ensures r.None? ==> forall k :: 0 <= k < |rules| ==> !Fires(rules[k], text)
  {
    if |rules| == 0 then None
    else if Fires(rules[0], text) then Some(0)
    else
      match FirstFiring(rules[1..], text)
      case None => None
      case Some(k) => Some(k + 1)
  }

  /** The reply the rule table gives: the first firing rule's reply, or the
      step's fallback when none fires. */
  function RuleTableReply(text: string, step: nat): Reply {
    match FirstFiring(Rules, text)
    case Some(k) => Rules[k].reply
    case None => Default(step)
  }

  // ---------------------------------------------------------------------
  // Properties of the classifier.

  /** The if-chain and the rule table agree on every answer and step. */
  lemma {:induction false} ClassifyMatchesRuleTable(text: string, step: nat)
    ensures Classify(text, step) == RuleTableReply(text, step)
  {
    RulesFire(text);
  }

  /** When each rule of the table fires, spelled out. */
  lemma {:induction false} RulesFire(text: string)
    ensures Fires(Rules[0], text) <==> Contains(text, "1") || Contains(text, "スタッフ")
    ensures Fires(Rules[1], text) <==> Contains(text, "2") || Contains(text, "客") || Contains(text, "お客")
    ensures Fires(Rules[2], text) <==> Contains(Lower(text), "treatment") || "2" == text
    ensures Fires(Rules[3], text) <==> Contains(Lower(text), "damage") || "3" == text
    ensures Fires(Rules[4], text) <==> Contains(text, "パーマ") || "3" == text
    ensures Fires(Rules[5], text) <==> Contains(Lower(text), "if you feel")
    ensures Rules[0].reply == Staff && Rules[1].reply == Customer && Rules[2].reply == Treatment
    ensures Rules[3].reply == Damage && Rules[4].reply == Perm && Rules[5].reply == IfYouFeel
    ensures |Rules| == 6
  {
    AnyPassesOne(HasLower("if you feel"), text);
    AnyPassesTwo(Has("1"), Has("スタッフ"), text);
    AnyPassesThree(Has("2"), Has("客"), Has("お客"), text);
    AnyPassesTwo(HasLower("treatment"), Is("2"), text);
    AnyPassesTwo(HasLower("damage"), Is("3"), text);
    AnyPassesTwo(Has("パーマ"), Is("3"), text);
    assert Rules[0] == Rule([Has("1"), Has("スタッフ")], Staff);
    assert Rules[1] == Rule([Has("2"), Has("客"), Has("お客")], Customer);
    assert Rules[2] == Rule([HasLower("treatment"), Is("2")], Treatment);
    assert Rules[3] == Rule([HasLower("damage"), Is("3")], Damage);
    assert Rules[4] == Rule([Has("パーマ"), Is("3")], Perm);
    assert Rules[5] == Rule([HasLower("if you feel")], IfYouFeel);
  }

  lemma {:induction false} AnyPassesOne(a: Test, text: string)
    ensures AnyPasses([a], text) <==> Passes(a, text)
  {
    assert [a][1..] == [];
  }

  lemma {:induction false} AnyPassesTwo(a: Test, b: Test, text: string)
    ensures AnyPasses([a, b], text) <==> Passes(a, text) || Passes(b, text)
  {
    assert [a, b][1..] == [b];
    AnyPassesOne(b, text);
  }

  lemma {:induction false} AnyPassesThree(a: Test, b: Test, c: Test, text: string)
    ensures AnyPasses([a, b, c], text) <==> Passes(a, text) || Passes(b, text) || Passes(c, text)
  {
    assert [a, b, c][1..] == [b, c];
    AnyPassesTwo(b, c, text);
  }

  /** The learner's answer names the staff role. */
  predicate StaffCue(text: string) {
    Contains(text, "1") || Contains(text, "スタッフ")
  }

  /** The learner's answer names the customer role; the source's third test,
      "お客", is left out because it only fires when "客" does. */
  predicate CustomerCue(text: string) {
    Contains(text, "2") || Contains(text, "客")
  }

  /** The source's `"2" == text` alternative is left out: such a text
      already has the customer cue. */
  predicate TreatmentCue(text: string) {
    Contains(Lower(text), "treatment")
  }

  predicate DamageCue(text: string) {
    Contains(Lower(text), "damage") || text == "3"
  }

  /** The source's `"3" == text` alternative is left out: such a text
      already has the damage cue. */
  predicate PermCue(text: string) {
    Contains(text, "パーマ")
  }

  predicate IfYouFeelCue(text: string) {
    Contains(Lower(text), "if you feel")
  }

  /** Each reply is chosen exactly when its own cue holds and no earlier
      reply's cue does. The chain of cues omits the source's three dead
      alternatives ("お客", the exact "2" of the treatment test and the
      exact "3" of the パーマ test) and still gives the same reply. */
  lemma {:induction false} ClassifyByCues(text: string, step: nat)
    ensures var r := Classify(text, step);
      && (r == Staff <==> StaffCue(text))
      && (r == Customer <==> !StaffCue(text) && CustomerCue(text))
      && (r == Treatment <==> !StaffCue(text) && !CustomerCue(text) && TreatmentCue(text))
      && (r == Damage <==> !StaffCue(text) && !CustomerCue(text) && !TreatmentCue(text) && DamageCue(text))
      && (r == Perm <==> !StaffCue(text) && !CustomerCue(text) && !TreatmentCue(text) && !DamageCue(text)
                         && PermCue(text))
      && (r == IfYouFeel <==> !StaffCue(text) && !CustomerCue(text) && !TreatmentCue(text) && !DamageCue(text)
                              && !PermCue(text) && IfYouFeelCue(text))
      && (r == Default(step) <==> !StaffCue(text) && !CustomerCue(text) && !TreatmentCue(text)
                                  && !DamageCue(text) && !PermCue(text) && !IfYouFeelCue(text))
  {
    if Contains(text, "お客") {
      ContainsTransitive(text, "お客", "客");
    }
    if text == "2" {
      ContainsSelf(text);
    }
  }

  /** The bare answer "2" is always read as choosing the customer role,
      never as the treatment answer. */
  lemma {:induction false} ExactTwoIsCustomer(step: nat)
    ensures Classify("2", step) == Customer
  {
    ContainsNoLonger("2", "1");
    ContainsNoLonger("2", "スタッフ");
    ContainsSelf("2");
  }

  /** The bare answer "3" is always read as the damage answer, never as
      the パーマ one. */
  lemma {:induction false} ExactThreeIsDamage(step: nat)
    ensures Classify("3", step) == Damage
  {
    ContainsNoLonger("3", "1");
    ContainsNoLonger("3", "2");
    ContainsNoLonger("3", "客");
    ContainsNoLonger("3", "スタッフ");
    ContainsNoLonger("3", "お客");
    ContainsNoLonger(Lower("3"), "treatment");
  }

  /** The reply depends on the step only through the fallback. */
  lemma {:induction false} StepOnlyChoosesFallback(text: string, step1: nat, step2: nat)
    ensures Classify(text, step1).Default? <==> Classify(text, step2).Default?
    ensures !Classify(text, step1).Default? ==> Classify(text, step1) == Classify(text, step2)
  {
  }
}
