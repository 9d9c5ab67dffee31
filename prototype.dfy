/**
 * The prototype bot of bot.js: a German/Russian quiz held in a per-chat
 * session object. A word is an object whose `status` the answer branch
 * changes in place (`currentWord.status = 'practiced'`); `currentWord` is
 * the same object as an element of `words`, so the change shows in the
 * list. That sharing is modelled by naming a word object by its slot in
 * the list that holds it (WordRef).
 */
module Prototype {
  import opened Wrappers
  import opened Vocabulary
  import opened GoogleSheet
  import Utils

  // ---------------------------------------------------------------------
  // Word lists, as values
  // ---------------------------------------------------------------------

  /** The index of the first word still to practise (`words.find(...)`), if any. */
  function FirstToPractice(vs: seq<RuWord>): (k: Option<nat>)
    ensures k.None? <==> forall i :: 0 <= i < |vs| ==> vs[i].status != ToPractice
    ensures k.Some? ==> k.value < |vs| && vs[k.value].status == ToPractice
    ensures k.Some? ==> forall i :: 0 <= i < k.value ==> vs[i].status != ToPractice
  {
    if vs == [] then None
    else if vs[0].status == ToPractice then Some(0)
    else match FirstToPractice(vs[1..])
      case None => None
      case Some(k) => Some(k + 1)
  }

  /** How many words are still to practise. */
  function Remaining(vs: seq<RuWord>): (n: nat)
    ensures n <= |vs|
  {
    if vs == [] then 0 else (if vs[0].status == ToPractice then 1 else 0) + Remaining(vs[1..])
  }

  lemma {:induction false} RemainingZero(vs: seq<RuWord>)
    ensures Remaining(vs) == 0 <==> FirstToPractice(vs).None?
  {
    if vs != [] {
      RemainingZero(vs[1..]);
    }
  }

  /** Practising one word that was still to practise leaves exactly one fewer. */
  lemma {:induction false} PracticeOne(vs: seq<RuWord>, k: nat)
    requires k < |vs| && vs[k].status == ToPractice
    ensures Remaining(vs[k := vs[k].(status := Practiced)]) == Remaining(vs) - 1
  {
    var x := vs[k].(status := Practiced);
    if k == 0 {
      assert vs[k := x][1..] == vs[1..];
    } else {
      assert vs[k := x][1..] == vs[1..][k - 1 := x];
      PracticeOne(vs[1..], k - 1);
    }
  }

  /** The list after a correct answer to the question about the first word still to practise. */
  function AfterCorrect(vs: seq<RuWord>): (r: seq<RuWord>)
    ensures |r| == |vs|
  {
    match FirstToPractice(vs)
    case None => vs
    case Some(k) => vs[k := vs[k].(status := Practiced)]
  }

  function AfterCorrectAnswers(vs: seq<RuWord>, n: nat): seq<RuWord>
    decreases n
  {
    if n == 0 then vs else AfterCorrectAnswers(AfterCorrect(vs), n - 1)
  }

  /**
   * With first-pick selection every correct answer finishes one word: after
   * n correct answers n fewer words remain.
   */
  lemma {:induction false} CorrectAnswersFinish(vs: seq<RuWord>, n: nat)
    requires n <= Remaining(vs)
    ensures Remaining(AfterCorrectAnswers(vs, n)) == Remaining(vs) - n
    decreases n
  {
    if n > 0 {
      RemainingZero(vs);
      var k := FirstToPractice(vs).value;
      assert AfterCorrect(vs) == vs[k := vs[k].(status := Practiced)];
      PracticeOne(vs, k);
      CorrectAnswersFinish(AfterCorrect(vs), n - 1);
      assert AfterCorrectAnswers(vs, n) == AfterCorrectAnswers(AfterCorrect(vs), n - 1);
    }
  }

  // ---------------------------------------------------------------------
  // Answer options
  // ---------------------------------------------------------------------

  /** `words.map(word => word.russian)`. */
  function Russians(ws: seq<RuWord>): (r: seq<string>)
    ensures |r| == |ws|
    ensures forall i :: 0 <= i < |ws| ==> r[i] == ws[i].russian
  {
    if ws == [] then [] else [ws[0].russian] + Russians(ws[1..])
  }

  /** `words.map(word => word.russian).filter(russian => russian !== correctAnswer)`. */
  function Others(ws: seq<RuWord>, correct: string): (r: seq<string>)
    ensures |r| <= |ws|
    ensures forall s :: s in r <==> s != correct && s in Russians(ws)
  {
    if ws == [] then []
    else (if ws[0].russian != correct then [ws[0].russian] else []) + Others(ws[1..], correct)
  }

  /**
   * `getShuffledOptions`: shuffle the other translations, keep the first
   * three, put the correct answer in front and shuffle again. The two
   * shuffles draw from `raw1` and `raw2`.
   */
  function ShuffledOptions(correct: string, ws: seq<RuWord>, raw1: seq<nat>, raw2: seq<nat>): seq<string> {
    var others := Others(ws, correct);
    var shuffled := Utils.FisherYates(others, Utils.Picks(raw1, |others|));
    var options := [correct] + shuffled[..Utils.Min(3, |shuffled|)];
    Utils.FisherYates(options, Utils.Picks(raw2, |options|))
  }

  /**
   * Whatever the draws: one option per other translation up to three, plus
   * the correct answer; the correct answer exactly once (the others were
   * filtered against it); every other option a translation of some word
   * that differs from the correct one, and no translation more often than
   * the other words have it.
   */
  lemma ShuffledOptionsSpec(correct: string, ws: seq<RuWord>, raw1: seq<nat>, raw2: seq<nat>)
    ensures var options := ShuffledOptions(correct, ws, raw1, raw2);
            && |options| == 1 + Utils.Min(3, |Others(ws, correct)|)
            && multiset(options)[correct] == 1
            && (forall o :: o in options && o != correct ==> o in Others(ws, correct))
            && multiset(options) - multiset{correct} <= multiset(Others(ws, correct))
  {
    var others := Others(ws, correct);
    var shuffled := Utils.FisherYates(others, Utils.Picks(raw1, |others|));
    Utils.FisherYatesPermutes(others, Utils.Picks(raw1, |others|));
    var first := shuffled[..Utils.Min(3, |shuffled|)];
    var options := [correct] + first;
    Utils.FisherYatesPermutes(options, Utils.Picks(raw2, |options|));
    assert correct !in others;
    assert correct !in multiset(others);
    assert correct !in shuffled;
    assert correct !in first by {
      assert forall x :: x in first ==> x in shuffled;
    }
    assert multiset(options) == multiset{correct} + multiset(first);
    Utils.PrefixSubMultiset(shuffled, Utils.Min(3, |shuffled|));
    assert multiset(options) - multiset{correct} == multiset(first);
    forall o | o in ShuffledOptions(correct, ws, raw1, raw2) && o != correct
      ensures o in others
    {
      assert o in multiset(options);
      assert o in first;
      assert o in shuffled;
      assert o in multiset(shuffled);
    }
  }

  /** `shuffleArray`: the downward swap loop, on the argument itself, which it returns. */
  method ShuffleInPlace<T>(a: array<T>, picks: seq<nat>) returns (r: array<T>)
    requires Utils.ValidPicks(picks, a.Length)
    modifies a
    ensures r == a
    ensures a[..] == Utils.FisherYates(old(a[..]), picks)
    ensures multiset(a[..]) == multiset(old(a[..]))
  {
    var i := a.Length - 1;
    while i > 0
      invariant -1 <= i < a.Length
      invariant Utils.ShuffleDown(a[..], picks, i) == Utils.FisherYates(old(a[..]), picks)
    {
      var j := picks[i];
      ghost var before := a[..];
      a[i], a[j] := a[j], a[i];
      assert a[..] == Utils.Swap(before, i, j);
      i := i - 1;
    }
    Utils.FisherYatesPermutes(old(a[..]), picks);
    r := a;
  }

  /** `getShuffledOptions`, on arrays as the source does, following ShuffledOptions. */
  method GetShuffledOptions(correct: string, ws: seq<RuWord>, raw1: seq<nat>, raw2: seq<nat>)
    returns (options: seq<string>)
    ensures options == ShuffledOptions(correct, ws, raw1, raw2)
    ensures |options| == 1 + Utils.Min(3, |Others(ws, correct)|)
    ensures multiset(options)[correct] == 1
  {
    var others := Others(ws, correct);
    var a := new string[|others|](i requires 0 <= i < |others| => others[i]);
    assert a[..] == others;
    a := ShuffleInPlace(a, Utils.Picks(raw1, a.Length));
    ghost var shuffled := a[..];
    assert shuffled == Utils.FisherYates(others, Utils.Picks(raw1, |others|));
    var n := Utils.Min(3, a.Length);
    var b := new string[1 + n](i requires 0 <= i <= n reads a => if i == 0 then correct else a[i - 1]);
    ghost var front := b[..];
    assert front == [correct] + shuffled[..n];
    b := ShuffleInPlace(b, Utils.Picks(raw2, b.Length));
    options := b[..];
    assert options == Utils.FisherYates(front, Utils.Picks(raw2, |front|));
    ShuffledOptionsSpec(correct, ws, raw1, raw2);
  }

  // ---------------------------------------------------------------------
  // The session and its handlers
  // ---------------------------------------------------------------------

  /**
   * A word object of the session. Each word object `getWordsByTopic`
   * creates sits in exactly one slot of the list it returns, so the object
   * is named by that list and the slot: changing `currentWord.status`
   * writes that slot, and a list replaced by a later `select_topic` no
   * longer sees it.
   */
  datatype WordRef = WordRef(list: array<RuWord>, index: nat)

  /** What the bot sends with `ctx.reply`. */
  datatype Reply =
    | Question(german: string, options: seq<string>)
    | Congrats(topic: string)
    | Bravo
    | Falsch

  /** An answer arriving when no question was asked (`currentWord` unset) throws. */
  datatype Outcome = Done | NoCurrentWord

  /** The reply `askQuestion` sends for a list: a question about its first word to practise, or the congratulation. */
  function AskReply(vs: seq<RuWord>, topic: string, raw1: seq<nat>, raw2: seq<nat>): Reply {
    match FirstToPractice(vs)
    case None => Congrats(topic)
    case Some(k) => Question(vs[k].german, ShuffledOptions(vs[k].russian, vs, raw1, raw2))
  }

  /**
   * One chat of the prototype: the parsed words sheet, the session fields
   * `words`, `topic` and `currentWord`, and the replies sent.
   */
  class QuizSession {
    const rows: seq<RuRow>
    var words: array<RuWord>
    var topic: string
    var currentWord: Option<WordRef>
    var replies: seq<Reply>

    /** The current word, when set, is a slot of the list it came from. */
    ghost predicate Valid()
      reads this
    {
      currentWord.Some? ==> currentWord.value.index < currentWord.value.list.Length
    }

    /** `currentWord` is the first word still to practise of the session's words. */
    ghost predicate Asked()
      reads this, words
    {
      && FirstToPractice(words[..]).Some?
      && currentWord == Some(WordRef(words, FirstToPractice(words[..]).value))
    }

    /** A fresh session `{}`: no words, no topic, no current word. */
    constructor (rows: seq<RuRow>)
      ensures Valid()
      ensures this.rows == rows && words.Length == 0 && topic == "" && currentWord.None? && replies == []
    {
      this.rows := rows;
      words := new RuWord[0];
      topic, currentWord, replies := "", None, [];
    }

    /** `askQuestion`: ask about the first word to practise, or congratulate and leave `currentWord` as it was. */
    method AskQuestion(raw1: seq<nat>, raw2: seq<nat>)
      requires Valid()
      modifies this`currentWord, this`replies
      ensures Valid()
      ensures replies == old(replies) + [AskReply(words[..], topic, raw1, raw2)]
      ensures FirstToPractice(words[..]).None? ==> currentWord == old(currentWord)
      ensures FirstToPractice(words[..]).Some? ==> Asked()
    {
      var found := FirstToPractice(words[..]);
      if found.None? {
        replies := replies + [Congrats(topic)];
        return;
      }
      var wordToPractice := words[found.value];
      var options := GetShuffledOptions(wordToPractice.russian, words[..], raw1, raw2);
      currentWord := Some(WordRef(words, found.value));
      replies := replies + [Question(wordToPractice.german, options)];
    }

    /**
     * The `select_topic` branch: the session's words become a new list
     * holding exactly `getWordsByTopic(topic)`, then a question is asked.
     */
    method SelectTopic(t: string, raw1: seq<nat>, raw2: seq<nat>)
      requires Valid()
      modifies this`words, this`topic, this`currentWord, this`replies
      ensures Valid()
      ensures fresh(words) && words[..] == GetWords(rows, t) && topic == t
      ensures replies == old(replies) + [AskReply(words[..], t, raw1, raw2)]
      ensures FirstToPractice(words[..]).None? ==> currentWord == old(currentWord)
      ensures FirstToPractice(words[..]).Some? ==> Asked()
    {
      var ws := GetWords(rows, t);
      words := new RuWord[|ws|](i requires 0 <= i < |ws| => ws[i]);
      assert words[..] == ws;
      topic := t;
      AskQuestion(raw1, raw2);
    }

    /**
     * The `answer_question` branch. With no current word it throws and
     * nothing changes. Otherwise an answer equal to `currentWord.russian`
     * sets that object's status to practiced, which the session's words
     * see when the object is one of theirs, and any other answer changes no
     * status; then "Bravo!" or the consolation, then the congratulation
     * when no word is left to practise, else the next question.
     */
    method AnswerQuestion(answer: string, raw1: seq<nat>, raw2: seq<nat>) returns (outcome: Outcome)
      requires Valid()
      modifies this`currentWord, this`replies, if currentWord.Some? then {currentWord.value.list} else {}
      ensures Valid()
      ensures words == old(words) && topic == old(topic)
      ensures old(currentWord).None? ==> outcome == NoCurrentWord && currentWord.None? && replies == old(replies)
      ensures old(currentWord).Some? ==>
        var r := old(currentWord).value;
        var right := answer == old(r.list[r.index]).russian;
        && outcome == Done
        && r.list[..] == (if right then old(r.list[..])[r.index := old(r.list[r.index]).(status := Practiced)]
                          else old(r.list[..]))
        && (r.list != words ==> words[..] == old(words[..]))
        && replies == old(replies) + [if right then Bravo else Falsch, AskReply(words[..], topic, raw1, raw2)]
        && (FirstToPractice(words[..]).None? ==> currentWord == old(currentWord))
        && (FirstToPractice(words[..]).Some? ==> Asked())
      ensures old(Asked()) ==>
        words[..] == if answer == old(words[currentWord.value.index]).russian
                     then AfterCorrect(old(words[..])) else old(words[..])
    {
      if currentWord.None? {
        return NoCurrentWord;
      }
      var r := currentWord.value;
      var correct := answer == r.list[r.index].russian;
      if correct {
        r.list[r.index] := r.list[r.index].(status := Practiced);
      }
      replies := replies + [if correct then Bravo else Falsch];
      var wordToPractice := FirstToPractice(words[..]);
      if wordToPractice.None? {
        replies := replies + [Congrats(topic)];
      } else {
        AskQuestion(raw1, raw2);
      }
      outcome := Done;
    }
  }

  /**
   * Between a question and its answer the current word is the first word
   * to practise, and answering it correctly is one AfterCorrect step; so a
   * topic with n words to practise is finished by n correct answers.
   */
  lemma SessionFinishes(vs: seq<RuWord>)
    ensures FirstToPractice(AfterCorrectAnswers(vs, Remaining(vs))).None?
  {
    CorrectAnswersFinish(vs, Remaining(vs));
    RemainingZero(AfterCorrectAnswers(vs, Remaining(vs)));
  }
}
