/** The tennis scoring kata: four refactorings of one function that turns the
    points won by two players into the text of the score ("Love-All",
    "Thirty-Fifteen", "Deuce", "Advantage player1", "Win for player2", ...).

    `Classify` and `Score` state the rules once; `GetScore1` .. `GetScore4`
    model the four implementations as written, and each is proved to return
    `Score` for every pair of point counts. */
module Tennis {
  import opened Decimal

  /** Names of the point counts 0, 1, 2 and 3. */
  const POINTS: seq<string> := ["Love", "Fifteen", "Thirty", "Forty"]

  const DEFAULT_PLAYER1: string := "player1"
  const DEFAULT_PLAYER2: string := "player2"

  /** What JavaScript produces when an unassigned variable is concatenated. */
  const UNDEFINED: string := "undefined"

  // ---------------------------------------------------------------------
  // The rules
  // ---------------------------------------------------------------------

  datatype Player = Player1 | Player2

  /** The phases of a game: running score, deuce, advantage, won. */
  datatype Phase = Playing | Deuce | Advantage(leader: Player) | Win(leader: Player)

  function Classify(p1: nat, p2: nat): Phase
  {
    if p1 <= 3 && p2 <= 3 && !(p1 == 3 && p2 == 3) then Playing
    else if p1 == p2 then Deuce
    else
      var leader := if p1 > p2 then Player1 else Player2;
      if p1 == p2 + 1 || p2 == p1 + 1 then Advantage(leader) else Win(leader)
  }

  function NameOf(p: Player, name1: string, name2: string): string
  {
    match p
    case Player1 => name1
    case Player2 => name2
  }

  /** The score text the rules call for, with the given player names. */
  function Score(p1: nat, p2: nat, name1: string, name2: string): string
  {
    match Classify(p1, p2)
    case Playing =>
      if p1 == p2 then POINTS[p1] + "-All" else POINTS[p1] + "-" + POINTS[p2]
    case Deuce => "Deuce"
    case Advantage(leader) => "Advantage " + NameOf(leader, name1, name2)
    case Win(leader) => "Win for " + NameOf(leader, name1, name2)
  }

  function DefaultScore(p1: nat, p2: nat): string
  {
    Score(p1, p2, DEFAULT_PLAYER1, DEFAULT_PLAYER2)
  }

  /** A game is won by the first player to reach four points with a lead of
      two; with three points each and above, a lead of one is an advantage
      and equal points are deuce. */
  lemma PhaseCharacterization(p1: nat, p2: nat)
    ensures Classify(p1, p2) == Win(Player1) <==> p1 >= 4 && p1 >= p2 + 2
    ensures Classify(p1, p2) == Win(Player2) <==> p2 >= 4 && p2 >= p1 + 2
    ensures Classify(p1, p2) == Advantage(Player1) <==> p2 >= 3 && p1 == p2 + 1
    ensures Classify(p1, p2) == Advantage(Player2) <==> p1 >= 3 && p2 == p1 + 1
    ensures Classify(p1, p2) == Deuce <==> p1 == p2 && p1 >= 3
  {
  }

  /** Equal scores: "-All" below three points, "Deuce" from three on. */
  lemma EqualPointsScore(n: nat)
    ensures DefaultScore(n, n) ==
      if n == 0 then "Love-All"
      else if n == 1 then "Fifteen-All"
      else if n == 2 then "Thirty-All"
      else "Deuce"
  {
  }

  /** Different scores of at most three points each (not both three) read
      "<points of player 1>-<points of player 2>". */
  lemma RunningScore(p1: nat, p2: nat)
    requires p1 <= 3 && p2 <= 3 && p1 != p2
    ensures DefaultScore(p1, p2) == POINTS[p1] + "-" + POINTS[p2]
  {
  }

  /** Once a player has four points, a difference of exactly one point is an
      advantage to the leader. */
  lemma AdvantageScore(p1: nat, p2: nat)
    requires p1 >= 4 || p2 >= 4
    requires p1 == p2 + 1 || p2 == p1 + 1
    ensures DefaultScore(p1, p2) == "Advantage " + (if p1 > p2 then DEFAULT_PLAYER1 else DEFAULT_PLAYER2)
  {
  }

  /** Once a player has four points, a lead of two or more is a win. */
  lemma WinScore(p1: nat, p2: nat)
    requires p1 >= 4 || p2 >= 4
    requires p1 >= p2 + 2 || p2 >= p1 + 2
    ensures DefaultScore(p1, p2) == "Win for " + (if p1 > p2 then DEFAULT_PLAYER1 else DEFAULT_PLAYER2)
  {
  }

  /** The texts a score can take. */
  predicate IsScoreText(s: string)
  {
    || (exists i, j :: 0 <= i < 4 && 0 <= j < 4 && i != j && s == POINTS[i] + "-" + POINTS[j])
    || s in {"Love-All", "Fifteen-All", "Thirty-All", "Deuce"}
    || s in {"Advantage player1", "Advantage player2", "Win for player1", "Win for player2"}
  }

  lemma ScoreIsScoreText(p1: nat, p2: nat)
    ensures IsScoreText(DefaultScore(p1, p2))
  {
    match Classify(p1, p2)
    case Playing =>
      if p1 != p2 {
        assert DefaultScore(p1, p2) == POINTS[p1] + "-" + POINTS[p2];
      } else {
        EqualPointsScore(p1);
      }
    case Deuce =>
    case Advantage(leader) =>
      assert DefaultScore(p1, p2) == if leader == Player1 then "Advantage player1" else "Advantage player2";
    case Win(leader) =>
      assert DefaultScore(p1, p2) == if leader == Player1 then "Win for player1" else "Win for player2";
  }

  // ---------------------------------------------------------------------
  // getScore1: a switch on equal scores, a difference test, and a loop
  // that builds the running score
  // ---------------------------------------------------------------------

  method GetScore1(mScore1: nat, mScore2: nat) returns (score: string)
    ensures score == DefaultScore(mScore1, mScore2)
  {
    score := "";
    var tempScore := 0;
    if mScore1 == mScore2 {
      match mScore1 {
        case 0 => score := "Love-All";
        case 1 => score := "Fifteen-All";
        case 2 => score := "Thirty-All";
        case _ => score := "Deuce";
      }
    } else if mScore1 >= 4 || mScore2 >= 4 {
      var minusResult := mScore1 - mScore2;
      if minusResult == 1 {
        score := "Advantage player1";
      } else if minusResult == -1 {
        score := "Advantage player2";
      } else if minusResult >= 2 {
        score := "Win for player1";
      } else {
        score := "Win for player2";
      }
    } else {
      var i := 1;
      while i < 3
        invariant 1 <= i <= 3
        invariant i == 1 ==> score == ""
        invariant i == 2 ==> score == POINTS[mScore1]
        invariant i == 3 ==> score == POINTS[mScore1] + "-" + POINTS[mScore2]
      {
        if i == 1 {
          tempScore := mScore1;
        } else {
          score := score + "-";
          tempScore := mScore2;
        }
        match tempScore {
          case 0 => score := score + "Love";
          case 1 => score := score + "Fifteen";
          case 2 => score := score + "Thirty";
          case 3 => score := score + "Forty";
          case _ =>
        }
        i := i + 1;
      }
    }
  }

  // ---------------------------------------------------------------------
  // getScore2: a chain of independent `if`s, each overwriting `score`;
  // the two win checks come last and override everything before them
  // ---------------------------------------------------------------------

  method GetScore2(p1Point: nat, p2Point: nat) returns (score: string)
    ensures score == DefaultScore(p1Point, p2Point)
  {
    score := "";

    if p1Point == p2Point && p1Point < 3 {
      if p1Point == 0 {
        score := "Love";
      }
      if p1Point == 1 {
        score := "Fifteen";
      }
      if p1Point == 2 {
        score := "Thirty";
      }
      score := score + "-All";
    }
    if p1Point == p2Point && p1Point > 2 {
      score := "Deuce";
    }

    var p1Res := UNDEFINED;
    var p2Res := UNDEFINED;
    if p1Point > 0 && p2Point == 0 {
      if p1Point == 1 {
        p1Res := "Fifteen";
      }
      if p1Point == 2 {
        p1Res := "Thirty";
      }
      if p1Point == 3 {
        p1Res := "Forty";
      }
      p2Res := "Love";
      score := p1Res + "-" + p2Res;
    }
    if p2Point > 0 && p1Point == 0 {
      if p2Point == 1 {
        p2Res := "Fifteen";
      }
      if p2Point == 2 {
        p2Res := "Thirty";
      }
      if p2Point == 3 {
        p2Res := "Forty";
      }
      p1Res := "Love";
      score := p1Res + "-" + p2Res;
    }

    if p1Point > p2Point && p1Point < 4 {
      if p1Point == 2 {
        p1Res := "Thirty";
      }
      if p1Point == 3 {
        p1Res := "Forty";
      }
      if p2Point == 1 {
        p2Res := "Fifteen";
      }
      if p2Point == 2 {
        p2Res := "Thirty";
      }
      score := p1Res + "-" + p2Res;
    }
    if p2Point > p1Point && p2Point < 4 {
      if p2Point == 2 {
        p2Res := "Thirty";
      }
      if p2Point == 3 {
        p2Res := "Forty";
      }
      if p1Point == 1 {
        p1Res := "Fifteen";
      }
      if p1Point == 2 {
        p1Res := "Thirty";
      }
      score := p1Res + "-" + p2Res;
    }

    if p1Point > p2Point && p2Point >= 3 {
      score := "Advantage player1";
    }
    if p2Point > p1Point && p1Point >= 3 {
      score := "Advantage player2";
    }

    if p1Point >= 4 && p2Point >= 0 && p1Point - p2Point >= 2 {
      score := "Win for player1";
    }
    if p2Point >= 4 && p1Point >= 0 && p2Point - p1Point >= 2 {
      score := "Win for player2";
    }
  }

  // ---------------------------------------------------------------------
  // getScore3: one guard for the running score, a lookup table, and a
  // squared difference to tell an advantage from a win
  // ---------------------------------------------------------------------

  function GetScore3(p1: nat, p2: nat): string
  {
    if p1 < 4 && p2 < 4 && p1 + p2 < 6 then
      var s := POINTS[p1];
      if p1 == p2 then s + "-All" else s + "-" + POINTS[p2]
    else if p1 == p2 then "Deuce"
    else
      var s := if p1 > p2 then DEFAULT_PLAYER1 else DEFAULT_PLAYER2;
      if (p1 - p2) * (p1 - p2) == 1 then "Advantage " + s else "Win for " + s
  }

  /** A square equals one exactly when its root is one or minus one. */
  lemma SquareIsOne(d: int)
    ensures d * d == 1 <==> d == 1 || d == -1
  {
    if d >= 2 {
      assert d * d >= 2 * d;
    } else if d <= -2 {
      assert d * d >= -2 * d;
    }
  }

  lemma GetScore3FollowsRules(p1: nat, p2: nat)
    ensures GetScore3(p1, p2) == DefaultScore(p1, p2)
  {
    SquareIsOne(p1 - p2);
  }

  // ---------------------------------------------------------------------
  // getScore4: named helper predicates and configurable player names
  // ---------------------------------------------------------------------

  /** The keys `isPlaying` looks up: every "a-b" with a, b <= 3 except "3-3". */
  const PLAYING_KEYS: seq<string> :=
    ["0-0", "0-1", "0-2", "0-3", "1-0", "1-1", "1-2", "1-3",
     "2-0", "2-1", "2-2", "2-3", "3-0", "3-1", "3-2"]

  function PointsKey(p1: nat, p2: nat): string
  {
    NaturalToString(p1) + "-" + NaturalToString(p2)
  }

  lemma {:induction false} PlayingKeyLookup(p1: nat, p2: nat)
    ensures PointsKey(p1, p2) in PLAYING_KEYS <==> p1 <= 3 && p2 <= 3 && !(p1 == 3 && p2 == 3)
  {
    var key := PointsKey(p1, p2);
    if p1 < 10 && p2 < 10 {
      assert key == [DigitChar(p1), '-', DigitChar(p2)];
    } else {
      assert |key| > 3;
    }
  }

  function IsPlaying(p1: nat, p2: nat): (playing: bool)
    ensures playing <==> p1 <= 3 && p2 <= 3 && !(p1 == 3 && p2 == 3)
    ensures playing <==> p1 < 4 && p2 < 4 && p1 + p2 < 6
  {
    PlayingKeyLookup(p1, p2);
    PointsKey(p1, p2) in PLAYING_KEYS
  }

  predicate IsDeuce(p1: nat, p2: nat)
  {
    !IsPlaying(p1, p2) && p1 == p2
  }

  function Abs(x: int): nat
  {
    if x < 0 then -x else x
  }

  predicate IsAdvantage(p1: nat, p2: nat)
  {
    Abs(p1 - p2) < 2
  }

  function PlayingScore(p1: nat, p2: nat): string
    requires p1 < 4 && p2 < 4
  {
    var score := POINTS[p1];
    if p1 == p2 then score + "-All" else score + "-" + POINTS[p2]
  }

  function GetScore4(p1: nat, p2: nat, player1: string, player2: string): string
  {
    if IsPlaying(p1, p2) then PlayingScore(p1, p2)
    else if IsDeuce(p1, p2) then "Deuce"
    else
      var leadingPlayer := if p1 > p2 then player1 else player2;
      if IsAdvantage(p1, p2) then "Advantage " + leadingPlayer else "Win for " + leadingPlayer
  }

  lemma GetScore4FollowsRules(p1: nat, p2: nat, player1: string, player2: string)
    ensures GetScore4(p1, p2, player1, player2) == Score(p1, p2, player1, player2)
  {
  }

  /** With its default names getScore4 is getScore3; other names change only
      the advantage and win texts. */
  lemma GetScore4Names(p1: nat, p2: nat, player1: string, player2: string)
    ensures GetScore4(p1, p2, DEFAULT_PLAYER1, DEFAULT_PLAYER2) == GetScore3(p1, p2)
    ensures Classify(p1, p2) in {Playing, Deuce} ==> GetScore4(p1, p2, player1, player2) == GetScore3(p1, p2)
    ensures Classify(p1, p2).Advantage? ==>
      GetScore4(p1, p2, player1, player2) == "Advantage " + (if p1 > p2 then player1 else player2)
    ensures Classify(p1, p2).Win? ==>
      GetScore4(p1, p2, player1, player2) == "Win for " + (if p1 > p2 then player1 else player2)
  {
    GetScore3FollowsRules(p1, p2);
  }

  // ---------------------------------------------------------------------
  // The exported functions agree
  // ---------------------------------------------------------------------

  /** The four exported functions return the same text for every pair of
      point counts, and that text is the one the rules call for. */
  method ExportedScoresAgree(p1: nat, p2: nat) returns (s1: string, s2: string, s3: string, s4: string)
    ensures s1 == s2 == s3 == s4
    ensures s1 == DefaultScore(p1, p2)
  {
    s1 := GetScore1(p1, p2);
    s2 := GetScore2(p1, p2);
    s3 := GetScore3(p1, p2);
    s4 := GetScore4(p1, p2, DEFAULT_PLAYER1, DEFAULT_PLAYER2);
    GetScore3FollowsRules(p1, p2);
    GetScore4FollowsRules(p1, p2, DEFAULT_PLAYER1, DEFAULT_PLAYER2);
  }
}
