/**
 * ai.js: comment phrases chosen by thresholds on a player's figures, the composed comment with
 * its random extras, and the conversion of a scraped boat record into those figures. Figures
 * are exact reals; the random draws of `generateComment` are parameters.
 */
module Ai {
  import opened Common

  // ---------------------------------------------------------------------------------------------
  // generateDataBasedComment (lines 4-41)

  /** The figures the phrase rules look at (the result of `buildPlayerData`). */
  datatype DataPlayer = DataPlayer(st: real, motor: real, local: real, course: real, eval: string)

  /** Every phrase the rules can push, in the order of the rules. */
  const Phrases: seq<string> := [
    "直近ST好調", "スタート遅れ気味",
    "モーター気配上向き", "パワー不足感あり",
    "当地巧者", "当地では苦戦続き",
    "得意コースからの一戦",
    "本命視される実力", "一発狙いの穴候補"]

  /**
   * When each phrase applies, stated independently of the others: the `else if` of each pair
   * needs no negation of its first half because the two halves cannot both hold.
   */
  function Applies(p: DataPlayer): (r: seq<bool>)
    ensures |r| == |Phrases|
  {
    [p.st <= 0.15, p.st >= 0.20,
     p.motor >= 50.0, p.motor < 30.0,
     p.local >= 6.0, p.local < 4.0,
     p.course >= 40.0,
     p.eval == "◎", p.eval == "△" || p.eval == "×"]
  }

  /** The first n phrases whose flag is set, in order. */
  function ChosenUpTo(phrases: seq<string>, flags: seq<bool>, n: nat): (r: seq<string>)
    requires |flags| == |phrases| && n <= |phrases|
    ensures |r| <= n
  {
    if n == 0 then [] else ChosenUpTo(phrases, flags, n - 1) + (if flags[n - 1] then [phrases[n - 1]] else [])
  }

  /** The phrases whose flag is set, in order. */
  function Chosen(phrases: seq<string>, flags: seq<bool>): (r: seq<string>)
    requires |flags| == |phrases|
    ensures |r| <= |phrases|
  {
    ChosenUpTo(phrases, flags, |phrases|)
  }

  /** Lines 4-41: one `if`/`else if` per category, pushing its phrase. */
  method GenerateDataBasedComment(player: DataPlayer) returns (comments: seq<string>)
    ensures comments == Chosen(Phrases, Applies(player))
  {
    comments := [];
    comments := PushEither(comments, player.st <= 0.15, "直近ST好調", player.st >= 0.20, "スタート遅れ気味");
    comments := PushEither(comments, player.motor >= 50.0, "モーター気配上向き", player.motor < 30.0, "パワー不足感あり");
    comments := PushEither(comments, player.local >= 6.0, "当地巧者", player.local < 4.0, "当地では苦戦続き");
    comments := PushEither(comments, player.course >= 40.0, "得意コースからの一戦", false, "");
    comments := PushEither(comments, player.eval == "◎", "本命視される実力", player.eval == "△" || player.eval == "×", "一発狙いの穴候補");
    RuleOrder(player);
  }

  /** One `if (first) push(a) else if (second) push(b)` of lines 4-41. */
  method PushEither(comments: seq<string>, first: bool, a: string, second: bool, b: string) returns (r: seq<string>)
    ensures r == comments + Either(first, a, second, b)
  {
    r := comments;
    if first {
      r := r + [a];
    } else if second {
      r := r + [b];
    }
  }

  /** What `if (first) push(a) else if (second) push(b)` adds. */
  function Either(first: bool, a: string, second: bool, b: string): (r: seq<string>)
    ensures first ==> r == [a]
    ensures !first ==> (second <==> r == [b]) && (!second <==> r == [])
  {
    if first then [a] else if second then [b] else []
  }

  /** What rules n and n + 1 add when they are joined by `else if`. */
  function EitherAt(phrases: seq<string>, flags: seq<bool>, n: nat): seq<string>
    requires |flags| == |phrases| && n + 1 < |phrases|
  {
    Either(flags[n], phrases[n], flags[n + 1], phrases[n + 1])
  }

  /** Two rules joined by `else if` that never both apply add what the pair pushes. */
  lemma PairStep(phrases: seq<string>, flags: seq<bool>, n: nat, acc: seq<string>)
    requires |flags| == |phrases| && n + 2 <= |phrases|
    requires acc == ChosenUpTo(phrases, flags, n)
    requires !(flags[n] && flags[n + 1])
    ensures ChosenUpTo(phrases, flags, n + 2) == acc + EitherAt(phrases, flags, n)
  {
  }

  /** Nine rules, and no two rules of an `else if` pair apply together. */
  predicate PairsExclusive(phrases: seq<string>, flags: seq<bool>) {
    |phrases| == 9 && |flags| == 9
    && !(flags[0] && flags[1]) && !(flags[2] && flags[3]) && !(flags[4] && flags[5]) && !(flags[7] && flags[8])
  }

  /** The first two pairs of rules. */
  lemma FirstPairs(phrases: seq<string>, flags: seq<bool>)
    requires |phrases| == 9 && |flags| == 9
    requires !(flags[0] && flags[1]) && !(flags[2] && flags[3])
    ensures ChosenUpTo(phrases, flags, 4) == [] + EitherAt(phrases, flags, 0) + EitherAt(phrases, flags, 2)
  {
    PairStep(phrases, flags, 0, []);
    PairStep(phrases, flags, 2, [] + EitherAt(phrases, flags, 0));
  }

  /** The third pair and the single course rule. */
  lemma MiddleRules(phrases: seq<string>, flags: seq<bool>, acc: seq<string>)
    requires |phrases| == 9 && |flags| == 9
    requires !(flags[4] && flags[5])
    requires acc == ChosenUpTo(phrases, flags, 4)
    ensures ChosenUpTo(phrases, flags, 7) == acc + EitherAt(phrases, flags, 4) + Either(flags[6], phrases[6], false, "")
  {
    PairStep(phrases, flags, 4, acc);
  }

  /**
   * The filter over the nine rules is what the four `else if` pairs and the single course rule
   * push, in order, as long as neither rule of a pair applies together with the other.
   */
  lemma ChosenPairs(phrases: seq<string>, flags: seq<bool>)
    requires PairsExclusive(phrases, flags)
    ensures Chosen(phrases, flags)
         == [] + EitherAt(phrases, flags, 0) + EitherAt(phrases, flags, 2) + EitherAt(phrases, flags, 4)
          + Either(flags[6], phrases[6], false, "") + EitherAt(phrases, flags, 7)
  {
    FirstPairs(phrases, flags);
    var c4 := [] + EitherAt(phrases, flags, 0) + EitherAt(phrases, flags, 2);
    MiddleRules(phrases, flags, c4);
    PairStep(phrases, flags, 7, c4 + EitherAt(phrases, flags, 4) + Either(flags[6], phrases[6], false, ""));
  }

  /** The nine rules of `Applies`, paired as the if-chain of lines 4-41 pairs them. */
  lemma RuleOrder(p: DataPlayer)
    ensures Chosen(Phrases, Applies(p))
         == [] + Either(p.st <= 0.15, "直近ST好調", p.st >= 0.20, "スタート遅れ気味")
          + Either(p.motor >= 50.0, "モーター気配上向き", p.motor < 30.0, "パワー不足感あり")
          + Either(p.local >= 6.0, "当地巧者", p.local < 4.0, "当地では苦戦続き")
          + Either(p.course >= 40.0, "得意コースからの一戦", false, "")
          + Either(p.eval == "◎", "本命視される実力", p.eval == "△" || p.eval == "×", "一発狙いの穴候補")
  {
    var f := Applies(p);
    assert PairsExclusive(Phrases, f);
    ChosenPairs(Phrases, f);
    StPair(p);
    MotorPair(p);
    LocalPair(p);
    CourseRule(p);
    EvalPair(p);
  }

  /** Lines 8-12: the ST pair. */
  lemma StPair(p: DataPlayer)
    ensures EitherAt(Phrases, Applies(p), 0) == Either(p.st <= 0.15, "直近ST好調", p.st >= 0.20, "スタート遅れ気味")
  {
  }

  /** Lines 15-19: the motor pair. */
  lemma MotorPair(p: DataPlayer)
    ensures EitherAt(Phrases, Applies(p), 2) == Either(p.motor >= 50.0, "モーター気配上向き", p.motor < 30.0, "パワー不足感あり")
  {
  }

  /** Lines 22-26: the local pair. */
  lemma LocalPair(p: DataPlayer)
    ensures EitherAt(Phrases, Applies(p), 4) == Either(p.local >= 6.0, "当地巧者", p.local < 4.0, "当地では苦戦続き")
  {
  }

  /** Lines 29-31: the course rule. */
  lemma CourseRule(p: DataPlayer)
    ensures Either(Applies(p)[6], Phrases[6], false, "") == Either(p.course >= 40.0, "得意コースからの一戦", false, "")
  {
  }

  /** Lines 34-38: the evaluation pair. */
  lemma EvalPair(p: DataPlayer)
    ensures EitherAt(Phrases, Applies(p), 7) == Either(p.eval == "◎", "本命視される実力", p.eval == "△" || p.eval == "×", "一発狙いの穴候補")
  {
  }

  /** What rule k contributes: its phrase when it applies. */
  function Part(phrases: seq<string>, flags: seq<bool>, k: nat): (r: seq<string>)
    requires |flags| == |phrases| && k < |phrases|
    ensures |r| <= 1 && (flags[k] <==> r == [phrases[k]]) && (!flags[k] <==> r == [])
  {
    if flags[k] then [phrases[k]] else []
  }

  /** The filter unfolded over the nine rules: the chosen phrases appear in rule order. */
  lemma ChosenSteps(phrases: seq<string>, flags: seq<bool>)
    requires |phrases| == 9 && |flags| == 9
    ensures Chosen(phrases, flags)
         == Part(phrases, flags, 0) + Part(phrases, flags, 1) + Part(phrases, flags, 2)
          + Part(phrases, flags, 3) + Part(phrases, flags, 4) + Part(phrases, flags, 5)
          + Part(phrases, flags, 6) + Part(phrases, flags, 7) + Part(phrases, flags, 8)
  {
    assert ChosenUpTo(phrases, flags, 1) == Part(phrases, flags, 0) by {
      assert [] + Part(phrases, flags, 0) == Part(phrases, flags, 0);
    }
    assert ChosenUpTo(phrases, flags, 2) == ChosenUpTo(phrases, flags, 1) + Part(phrases, flags, 1);
    assert ChosenUpTo(phrases, flags, 3) == ChosenUpTo(phrases, flags, 2) + Part(phrases, flags, 2);
    assert ChosenUpTo(phrases, flags, 4) == ChosenUpTo(phrases, flags, 3) + Part(phrases, flags, 3);
    assert ChosenUpTo(phrases, flags, 5) == ChosenUpTo(phrases, flags, 4) + Part(phrases, flags, 4);
    assert ChosenUpTo(phrases, flags, 6) == ChosenUpTo(phrases, flags, 5) + Part(phrases, flags, 5);
    assert ChosenUpTo(phrases, flags, 7) == ChosenUpTo(phrases, flags, 6) + Part(phrases, flags, 6);
    assert ChosenUpTo(phrases, flags, 8) == ChosenUpTo(phrases, flags, 7) + Part(phrases, flags, 7);
    assert ChosenUpTo(phrases, flags, 9) == ChosenUpTo(phrases, flags, 8) + Part(phrases, flags, 8);
  }

  /** Membership in the filter: a phrase is chosen iff some rule with that phrase applies. */
  lemma {:induction false} ChosenMember(phrases: seq<string>, flags: seq<bool>, n: nat, x: string)
    requires |flags| == |phrases| && n <= |phrases|
    ensures x in ChosenUpTo(phrases, flags, n) <==> exists k :: 0 <= k < n && phrases[k] == x && flags[k]
  {
    if n > 0 {
      ChosenMember(phrases, flags, n - 1, x);
    }
  }

  /** No two rules push the same phrase. */
  lemma PhrasesDistinct()
    ensures forall i, j :: 0 <= i < j < |Phrases| ==> Phrases[i] != Phrases[j]
  {
    var p := Phrases;
    assert p[0][0] == '直' && p[1][0] == 'ス' && p[2][0] == 'モ' && p[3][0] == 'パ';
    assert p[4][0] == '当' && p[5][0] == '当' && p[6][0] == '得' && p[7][0] == '本' && p[8][0] == '一';
    assert |p[4]| == 4 && |p[5]| == 8;
  }

  /** With distinct phrases, the k-th phrase is chosen exactly when the k-th rule applies. */
  lemma ChosenIff(phrases: seq<string>, flags: seq<bool>, k: nat)
    requires |flags| == |phrases| && k < |phrases|
    requires forall i, j :: 0 <= i < j < |phrases| ==> phrases[i] != phrases[j]
    ensures phrases[k] in Chosen(phrases, flags) <==> flags[k]
  {
    ChosenMember(phrases, flags, |phrases|, phrases[k]);
  }

  /**
   * Lines 8-38: each phrase is present iff its condition holds. In particular the ST phrases
   * need st <= 0.15 and st >= 0.20 respectively, so neither appears in between.
   */
  lemma PhraseRules(p: DataPlayer)
    ensures var c := Chosen(Phrases, Applies(p));
            && ("直近ST好調" in c <==> p.st <= 0.15)
            && ("スタート遅れ気味" in c <==> p.st >= 0.20)
            && ("モーター気配上向き" in c <==> p.motor >= 50.0)
            && ("パワー不足感あり" in c <==> p.motor < 30.0)
            && ("当地巧者" in c <==> p.local >= 6.0)
            && ("当地では苦戦続き" in c <==> p.local < 4.0)
            && ("得意コースからの一戦" in c <==> p.course >= 40.0)
            && ("本命視される実力" in c <==> p.eval == "◎")
            && ("一発狙いの穴候補" in c <==> p.eval == "△" || p.eval == "×")
  {
    PhrasesDistinct();
    var f := Applies(p);
    ChosenIff(Phrases, f, 0);
    ChosenIff(Phrases, f, 1);
    ChosenIff(Phrases, f, 2);
    ChosenIff(Phrases, f, 3);
    ChosenIff(Phrases, f, 4);
    ChosenIff(Phrases, f, 5);
    ChosenIff(Phrases, f, 6);
    ChosenIff(Phrases, f, 7);
    ChosenIff(Phrases, f, 8);
  }

  /** At most one phrase per category: st, motor, local, course, eval. */
  lemma AtMostFive(p: DataPlayer)
    ensures |Chosen(Phrases, Applies(p))| <= 5
  {
    var f := Applies(p);
    ChosenSteps(Phrases, f);
    assert !(f[0] && f[1]) && !(f[2] && f[3]) && !(f[4] && f[5]) && !(f[7] && f[8]);
  }

  // ---------------------------------------------------------------------------------------------
  // generateComment (lines 43-66)

  /** Line 44-51: the extra phrases one of which is drawn at random. */
  const ExtraPhrases: seq<string> := [
    "自在戦光る", "差し切りチャンス", "展開待ち", "まくり一撃期待", "安定感ある走り", "ここ一番で強さ発揮"]

  /**
   * Lines 59-63: the first two of the shuffled phrases, then the extra phrase. `shuffled` stands
   * for the result of the random-comparator sort of line 61 and `draw` for the index of line 56.
   */
  function Selected(shuffled: seq<string>, draw: nat): (r: seq<string>)
    requires draw < |ExtraPhrases|
    ensures |r| == Min(2, |shuffled|) + 1 && r[|r| - 1] == ExtraPhrases[draw]
    ensures forall i :: 0 <= i < |r| - 1 ==> r[i] == shuffled[i]
  {
    (if |shuffled| > 0 then Head(shuffled, 2) else []) + [ExtraPhrases[draw]]
  }

  /** Line 65: the selection joined with "、" and closed with "。". */
  function GenerateComment(player: DataPlayer, shuffled: seq<string>, draw: nat): (r: string)
    requires draw < |ExtraPhrases|
    requires multiset(shuffled) == multiset(Chosen(Phrases, Applies(player)))
    ensures |r| > 0 && r[|r| - 1] == '。'
  {
    JoinText("、", Selected(shuffled, draw)) + "。"
  }

  /** The chosen parts of a comment: at most two phrase rules that apply, then one extra phrase. */
  lemma CommentParts(player: DataPlayer, shuffled: seq<string>, draw: nat)
    requires draw < |ExtraPhrases|
    requires multiset(shuffled) == multiset(Chosen(Phrases, Applies(player)))
    ensures var s := Selected(shuffled, draw);
            && |s| == Min(2, |Chosen(Phrases, Applies(player))|) + 1
            && s[|s| - 1] in ExtraPhrases
            && forall i :: 0 <= i < |s| - 1 ==> s[i] in Chosen(Phrases, Applies(player))
  {
    var s := Selected(shuffled, draw);
    var c := Chosen(Phrases, Applies(player));
    assert |shuffled| == |multiset(shuffled)| == |multiset(c)| == |c|;
    forall i | 0 <= i < |s| - 1 ensures s[i] in c {
      assert s[i] == shuffled[i];
      assert s[i] in multiset(shuffled);
    }
  }

  // ---------------------------------------------------------------------------------------------
  // buildPlayerData (lines 68-79)

  /** A scraped start timing: a number, a string, or null/undefined. */
  datatype Timing = Num(x: real) | Text(s: string) | Absent

  /** The fields of a boat record that line 71-76 read; `None` is null or undefined. */
  datatype BoatRecord = BoatRecord(
    averageStartTiming: Timing,
    motorTop2: Option<real>, motorWinRate: Option<real>,
    localTop1: Option<real>, localWinRate: Option<real>,
    boatTop2: Option<real>, courseWinRate: Option<real>)

  /** `a ?? b ?? 0`: the first present value of the chain; a present 0 is kept. */
  function Coalesce(a: Option<real>, b: Option<real>): (r: real)
    ensures a.Some? ==> r == a.value
    ensures a.None? && b.Some? ==> r == b.value
    ensures a.None? && b.None? ==> r == 0.0
  {
    match a
    case Some(x) => x
    case None => match b { case Some(y) => y case None => 0.0 }
  }

  /**
   * Lines 71-73: a number is kept as it is (0 included); a non-empty string is converted by
   * `toNumber`, standing for JavaScript `Number`; anything falsy gives 0.20.
   */
  function StartTiming(t: Timing, toNumber: string -> real): real {
    match t
    case Num(x) => x
    case Text(s) => if s != "" then toNumber(s) else 0.20
    case Absent => 0.20
  }

  /** Line 77: `evalMark || "ー"`, with `None` for a missing mark. */
  function EvalMark(evalMark: Option<string>): (r: string)
    ensures evalMark.Some? && evalMark.value != "" ==> r == evalMark.value
    ensures evalMark.None? || evalMark.value == "" ==> r == "ー"
  {
    if evalMark.Some? && evalMark.value != "" then evalMark.value else "ー"
  }

  /** Lines 69-79. */
  function BuildPlayerData(boat: BoatRecord, evalMark: Option<string>, toNumber: string -> real): (p: DataPlayer)
    ensures boat.averageStartTiming.Num? ==> p.st == boat.averageStartTiming.x
    ensures boat.averageStartTiming.Text? && boat.averageStartTiming.s != "" ==>
              p.st == toNumber(boat.averageStartTiming.s)
    ensures boat.averageStartTiming.Absent? || boat.averageStartTiming == Text("") ==> p.st == 0.20
    ensures p.motor == Coalesce(boat.motorTop2, boat.motorWinRate)
    ensures p.local == Coalesce(boat.localTop1, boat.localWinRate)
    ensures p.course == Coalesce(boat.boatTop2, boat.courseWinRate)
    ensures p.eval == EvalMark(evalMark)
  {
    DataPlayer(
      StartTiming(boat.averageStartTiming, toNumber),
      Coalesce(boat.motorTop2, boat.motorWinRate),
      Coalesce(boat.localTop1, boat.localWinRate),
      Coalesce(boat.boatTop2, boat.courseWinRate),
      EvalMark(evalMark))
  }

  /**
   * A record with no start timing and no figures gets the "late start" and both weak phrases,
   * and no mark gives no mark phrase: st 0.20, motor 0, local 0, course 0, eval "ー".
   */
  lemma EmptyRecordPhrases(toNumber: string -> real)
    ensures var p := BuildPlayerData(BoatRecord(Absent, None, None, None, None, None, None), None, toNumber);
            Chosen(Phrases, Applies(p)) == ["スタート遅れ気味", "パワー不足感あり", "当地では苦戦続き"]
  {
    var p := BuildPlayerData(BoatRecord(Absent, None, None, None, None, None, None), None, toNumber);
    var f := Applies(p);
    assert p.eval == "ー";
    assert !f[0] && f[1] && !f[2] && f[3] && !f[4] && f[5] && !f[6] && !f[7] && !f[8];
    ChosenSteps(Phrases, f);
  }
}
