/** The wording of the verdict the server returns for a wrong submission
    (app/api/routes.py, `validate_puzzle`): a phrase per incorrect player, the
    list of correct players, and the closing "from the ideal solution.". */
module RoutesFeedback {
  import opened Strings
  import opened Schemas

  const IdealSuffix: string := " from the ideal solution"

  /** Team A is shown as Red, any other label as Blue. */
  function TeamColor(playerLabel: string): (c: string)
    ensures c == "Red" <==> StartsWith(playerLabel, "A")
    ensures c == "Red" || c == "Blue"
  {
    if StartsWith(playerLabel, "A") then "Red" else "Blue"
  }

  /** The label without any `A` or `B`: every A and B goes, nothing else does. */
  function PlayerNumber(playerLabel: string): (n: string)
    ensures 'A' !in n && 'B' !in n
    ensures forall x :: x in n <==> x in playerLabel && x != 'A' && x != 'B'
  {
    RemoveChar(RemoveChar(playerLabel, 'A'), 'B')
  }

  function SquareWord(distance: int): (w: string)
    ensures w == "square" <==> distance == 1
    ensures w == "square" || w == "squares"
  {
    if distance == 1 then "square" else "squares"
  }

  function PlayerName(pf: PlayerFeedback): string {
    TeamColor(pf.playerLabel) + " Player " + PlayerNumber(pf.playerLabel)
  }

  /** The phrase for a misplaced player: colour, player number, distance, unit. */
  function IncorrectPhrase(pf: PlayerFeedback): string {
    PlayerName(pf) + " is " + IntToString(pf.distance) + " " + SquareWord(pf.distance)
  }

  /** The feedback entries whose `is_correct` is `wanted`, in order. */
  function Select(pfs: seq<PlayerFeedback>, wanted: bool): (r: seq<PlayerFeedback>)
    ensures |r| <= |pfs|
    ensures forall x :: x in r <==> x in pfs && x.isCorrect == wanted
  {
    if pfs == [] then []
    else (if pfs[0].isCorrect == wanted then [pfs[0]] else []) + Select(pfs[1..], wanted)
  }

  function Names(pfs: seq<PlayerFeedback>): (r: seq<string>)
    ensures |r| == |pfs|
  {
    seq(|pfs|, i requires 0 <= i < |pfs| => PlayerName(pfs[i]))
  }

  function Phrases(pfs: seq<PlayerFeedback>): (r: seq<string>)
    ensures |r| == |pfs|
  {
    seq(|pfs|, i requires 0 <= i < |pfs| => IncorrectPhrase(pfs[i]))
  }

  lemma PhrasesSnoc(pfs: seq<PlayerFeedback>, i: int)
    requires 0 <= i < |pfs|
    ensures Phrases(pfs[..i + 1]) == Phrases(pfs[..i]) + [IncorrectPhrase(pfs[i])]
  {
    assert forall k :: 0 <= k < i ==> pfs[..i + 1][k] == pfs[..i][k];
  }

  lemma NamesSnoc(pfs: seq<PlayerFeedback>, i: int)
    requires 0 <= i < |pfs|
    ensures Names(pfs[..i + 1]) == Names(pfs[..i]) + [PlayerName(pfs[i])]
  {
    assert forall k :: 0 <= k < i ==> pfs[..i + 1][k] == pfs[..i][k];
  }

  /** `correct_text`: "X is correct", or "X, Y and Z are correct". */
  function CorrectText(names: seq<string>): string
    requires |names| >= 1
  {
    if |names| == 1 then names[0] + " is correct"
    else Join(", ", names[..|names| - 1]) + " and " + names[|names| - 1] + " are correct"
  }

  /** The parts joined by `, and `, then the suffix and a full stop. */
  function Closing(parts: seq<string>): string {
    Join(", and ", parts) + IdealSuffix + "."
  }

  /** The message around the incorrect players' parts. */
  function Compose(pfs: seq<PlayerFeedback>, parts: seq<string>): string {
    var incorrect, correct := Select(pfs, false), Select(pfs, true);
    if |correct| > 0 && |incorrect| > 0 then CorrectText(Names(correct)) + ", but " + Closing(parts)
    else Closing(parts)
  }

  /** The parts as the server builds them: a lone incorrect player's phrase
      already carries the suffix that the message adds again. */
  function PartsAsWritten(incorrect: seq<PlayerFeedback>): seq<string> {
    if |incorrect| == 1 then [IncorrectPhrase(incorrect[0]) + IdealSuffix] else Phrases(incorrect)
  }

  function FeedbackAsWritten(pfs: seq<PlayerFeedback>): string {
    Compose(pfs, PartsAsWritten(Select(pfs, false)))
  }

  /** The message with the suffix once: the one the rest of the model uses. */
  function FeedbackText(pfs: seq<PlayerFeedback>): string {
    Compose(pfs, Phrases(Select(pfs, false)))
  }

  /** With exactly one incorrect player, the message as written ends with the
      suffix twice. */
  lemma SingleIncorrectDoubledSuffix(pfs: seq<PlayerFeedback>)
    requires |Select(pfs, false)| == 1
    ensures EndsWith(FeedbackAsWritten(pfs), IdealSuffix + IdealSuffix + ".")
  {
    var phrase := IncorrectPhrase(Select(pfs, false)[0]);
    ConcatAssoc(phrase + IdealSuffix, IdealSuffix, ".");
    ConcatAssoc(phrase, IdealSuffix, IdealSuffix + ".");
    ConcatAssoc(IdealSuffix, IdealSuffix, ".");
    EndsWithConcat(phrase, IdealSuffix + IdealSuffix + ".");
    ComposeShape(pfs, PartsAsWritten(Select(pfs, false)));
    EndsWithPrepend(ComposePrefix(pfs), Closing(PartsAsWritten(Select(pfs, false))), IdealSuffix + IdealSuffix + ".");
  }

  /** What stands before the closing: the correct players, when there are
      both kinds. */
  function ComposePrefix(pfs: seq<PlayerFeedback>): string {
    var incorrect, correct := Select(pfs, false), Select(pfs, true);
    if |correct| > 0 && |incorrect| > 0 then CorrectText(Names(correct)) + ", but " else ""
  }

  lemma ComposeShape(pfs: seq<PlayerFeedback>, parts: seq<string>)
    ensures Compose(pfs, parts) == ComposePrefix(pfs) + Closing(parts)
  {
    if ComposePrefix(pfs) == "" {
      assert "" + Closing(parts) == Closing(parts);
    }
  }

  lemma PhraseExample()
    ensures IncorrectPhrase(PlayerFeedback("A1", 2, false)) == "Red Player 1 is 2 squares"
  {
    assert StartsWith("A1", "A");
    assert RemoveChar("A1", 'A') == "1";
    assert RemoveChar("1", 'B') == "1";
    assert IntToString(2) == "2";
  }

  /** For instance, one player two cells off. */
  lemma DoubledSuffixExample()
    ensures FeedbackAsWritten([PlayerFeedback("A1", 2, false)])
            == "Red Player 1 is 2 squares" + IdealSuffix + IdealSuffix + "."
    ensures FeedbackText([PlayerFeedback("A1", 2, false)]) == "Red Player 1 is 2 squares" + IdealSuffix + "."
  {
    var pfs := [PlayerFeedback("A1", 2, false)];
    assert Select(pfs, false) == pfs;
    assert Select(pfs, true) == [];
    PhraseExample();
  }

  lemma PhraseEndsInWord(pf: PlayerFeedback)
    ensures var p := IncorrectPhrase(pf); |p| > 0 && (p[|p| - 1] == 'e' || p[|p| - 1] == 's')
  {
    var w := SquareWord(pf.distance);
    var p := IncorrectPhrase(pf);
    assert p == (PlayerName(pf) + " is " + IntToString(pf.distance) + " ") + w;
    assert p[|p| - 1] == w[|w| - 1];
  }

  /** The corrected message is its body, then the suffix; the body ends
      with the last incorrect phrase. */
  function FeedbackBody(pfs: seq<PlayerFeedback>): string {
    ComposePrefix(pfs) + Join(", and ", Phrases(Select(pfs, false)))
  }

  lemma FeedbackTextShape(pfs: seq<PlayerFeedback>)
    ensures FeedbackText(pfs) == FeedbackBody(pfs) + (IdealSuffix + ".")
  {
    var j := Join(", and ", Phrases(Select(pfs, false)));
    ComposeShape(pfs, Phrases(Select(pfs, false)));
    ClosingShape(ComposePrefix(pfs), j, IdealSuffix, ".");
  }

  lemma ClosingShape(p: string, j: string, a: string, b: string)
    ensures p + (j + a + b) == (p + j) + (a + b)
  {
  }

  lemma FeedbackBodyEnd(pfs: seq<PlayerFeedback>)
    requires |Select(pfs, false)| >= 1
    ensures var b := FeedbackBody(pfs); |b| > 0 && (b[|b| - 1] == 'e' || b[|b| - 1] == 's')
  {
    var sel := Select(pfs, false);
    var parts := Phrases(sel);
    var last := |parts| - 1;
    assert parts[last] == IncorrectPhrase(sel[last]);
    PhraseEndsInWord(sel[last]);
    JoinLastChar(", and ", parts);
    var j := Join(", and ", parts);
    LastOfConcat(ComposePrefix(pfs), j);
    assert FeedbackBody(pfs) == ComposePrefix(pfs) + j;
  }

  /** The corrected message ends with the suffix exactly once: before the
      suffix stands the last phrase's "square" or "squares". */
  lemma FeedbackSuffixOnce(pfs: seq<PlayerFeedback>)
    requires |Select(pfs, false)| >= 1
    ensures EndsWith(FeedbackText(pfs), IdealSuffix + ".")
    ensures !EndsWith(FeedbackText(pfs), IdealSuffix + IdealSuffix + ".")
  {
    FeedbackTextShape(pfs);
    FeedbackBodyEnd(pfs);
    EndsWithConcat(FeedbackBody(pfs), IdealSuffix + ".");
    NotDoubled(FeedbackText(pfs), FeedbackBody(pfs));
  }

  /** Text ending in "e" or "s" and then the suffix does not end with the
      suffix twice, whose inner copy ends in "n". */
  lemma NotDoubled(t: string, pre: string)
    requires t == pre + (IdealSuffix + ".") && |pre| > 0 && (pre[|pre| - 1] == 'e' || pre[|pre| - 1] == 's')
    ensures !EndsWith(t, IdealSuffix + IdealSuffix + ".")
  {
    ConcatAssoc(IdealSuffix, IdealSuffix, ".");
    NoOtherSuffix(t, pre, IdealSuffix + ".", IdealSuffix);
  }

  const ExampleVerdict: seq<PlayerFeedback> :=
    [PlayerFeedback("A1", 0, true), PlayerFeedback("B2", 1, false), PlayerFeedback("A3", 3, false)]

  lemma ExampleSelect()
    ensures Select(ExampleVerdict, false) == ExampleVerdict[1..]
    ensures Select(ExampleVerdict, true) == ExampleVerdict[..1]
  {
    var v := ExampleVerdict;
    assert Select(v[2..], false) == v[2..] && Select(v[2..], true) == [];
    assert v[1..][1..] == v[2..];
    assert Select(v[1..], false) == v[1..] && Select(v[1..], true) == [];
  }

  /** A team letter followed by one other character shows as that character. */
  lemma TeamLabelNumber(t: char, d: char)
    requires (t == 'A' || t == 'B') && d != 'A' && d != 'B'
    ensures PlayerNumber([t, d]) == [d]
  {
    assert [t, d][1..] == [d];
    assert [d][1..] == [];
    if t == 'A' {
      assert RemoveChar([t, d], 'A') == [d];
      assert RemoveChar([d], 'B') == [d];
    } else {
      assert RemoveChar([d], 'A') == [d];
      assert RemoveChar([t, d], 'A') == [t, d];
      assert RemoveChar([t, d], 'B') == [d];
    }
  }

  lemma ExampleNames()
    ensures PlayerName(PlayerFeedback("A1", 0, true)) == "Red Player 1"
    ensures IncorrectPhrase(PlayerFeedback("B2", 1, false)) == "Blue Player 2 is 1 square"
  {
    ExampleFirstName();
    ExampleSecond();
  }

  lemma ExampleFirstName()
    ensures PlayerName(PlayerFeedback("A1", 0, true)) == "Red Player 1"
  {
    TeamLabelNumber('A', '1');
    assert "A1" == ['A', '1'];
    assert StartsWith("A1", "A");
  }

  lemma ExampleSecond()
    ensures IncorrectPhrase(PlayerFeedback("B2", 1, false)) == "Blue Player 2 is 1 square"
  {
    TeamLabelNumber('B', '2');
    assert "B2" == ['B', '2'];
    assert !StartsWith("B2", "A");
    assert IntToString(1) == "1";
  }

  lemma ExampleThird()
    ensures IncorrectPhrase(PlayerFeedback("A3", 3, false)) == "Red Player 3 is 3 squares"
  {
    TeamLabelNumber('A', '3');
    assert "A3" == ['A', '3'];
    assert StartsWith("A3", "A");
    assert IntToString(3) == "3";
  }

  lemma ExamplePrefix()
    ensures ComposePrefix(ExampleVerdict) == "Red Player 1" + " is correct" + ", but "
  {
    ExampleSelect();
    ExampleNames();
    assert Names(ExampleVerdict[..1]) == ["Red Player 1"];
  }

  lemma ExampleJoin()
    ensures Join(", and ", Phrases(Select(ExampleVerdict, false)))
            == "Blue Player 2 is 1 square" + ", and " + "Red Player 3 is 3 squares"
  {
    ExampleSelect();
    ExampleNames();
    ExampleThird();
    assert Phrases(ExampleVerdict[1..]) == ["Blue Player 2 is 1 square", "Red Player 3 is 3 squares"];
  }

  /** The rules put together for a typical wrong answer: one correct player
      and two wrong ones, one of them a single cell off. */
  lemma FeedbackExample()
    ensures FeedbackText(ExampleVerdict)
            == ("Red Player 1" + " is correct" + ", but ")
               + ("Blue Player 2 is 1 square" + ", and " + "Red Player 3 is 3 squares")
               + (IdealSuffix + ".")
  {
    FeedbackTextShape(ExampleVerdict);
    ExamplePrefix();
    ExampleJoin();
  }

  /** One correct player reads "X is correct", several "X, Y and Z are correct". */
  lemma CorrectTextExamples()
    ensures CorrectText(["Red Player 1"]) == "Red Player 1 is correct"
    ensures CorrectText(["Red Player 1", "Red Player 2", "Blue Player 3"])
            == "Red Player 1, Red Player 2" + " and " + "Blue Player 3" + " are correct"
  {
    var names := ["Red Player 1", "Red Player 2", "Blue Player 3"];
    assert names[..2] == ["Red Player 1", "Red Player 2"];
    assert Join(", ", names[..2]) == "Red Player 1, Red Player 2";
  }

  /** The loops that build `feedback_parts` and `correct_labels`, then the
      message, with the suffix once. */
  method BuildFeedback(pfs: seq<PlayerFeedback>) returns (feedback: string)
    ensures feedback == FeedbackText(pfs)
  {
    var incorrect, correct := Select(pfs, false), Select(pfs, true);
    var parts: seq<string> := [];
    var i := 0;
    while i < |incorrect|
      invariant 0 <= i <= |incorrect|
      invariant parts == Phrases(incorrect[..i])
    {
      PhrasesSnoc(incorrect, i);
      parts := parts + [IncorrectPhrase(incorrect[i])];
      i := i + 1;
    }
    assert incorrect[..i] == incorrect;
    if |correct| > 0 && |incorrect| > 0 {
      var labels: seq<string> := [];
      var k := 0;
      while k < |correct|
        invariant 0 <= k <= |correct|
        invariant labels == Names(correct[..k])
      {
        NamesSnoc(correct, k);
        labels := labels + [PlayerName(correct[k])];
        k := k + 1;
      }
      assert correct[..k] == correct;
      var correctText;
      if |labels| == 1 {
        correctText := labels[0] + " is correct";
      } else {
        correctText := Join(", ", labels[..|labels| - 1]) + " and " + labels[|labels| - 1] + " are correct";
      }
      assert correctText == CorrectText(Names(correct));
      feedback := correctText + ", but " + Closing(parts);
    } else {
      feedback := Closing(parts);
    }
  }
}
