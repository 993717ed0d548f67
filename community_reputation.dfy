/**
 * Community reputation: a file hash is looked up in a constant table of
 * community votes. An unknown hash, or an entry holding no votes, scores 0;
 * otherwise the malicious share of the votes is scaled to 0..20 and truncated
 * toward zero, as Python's `int()` does. The table is a constant and the
 * lookup is a function of it, so no lookup can change it.
 */
module CommunityReputation {
  import opened Wrappers

  /**
   * One table entry. `NoVotes` is an empty record (falsy in Python);
   * `Tally` holds the `malicious` and `clean` vote counts.
   */
  datatype Entry = NoVotes | Tally(malicious: int, clean: int)

  /** Why a score could not be computed: the entry's two counts add up to 0. */
  datatype ScoreError = DivisionByZero

  /** `community_db`. */
  const CommunityDb: map<string, Entry> := map[
    "hash1" := Tally(8, 1),
    "hash2" := Tally(0, 10)
  ]

  function Abs(x: int): nat
  {
    if x < 0 then -x else x
  }

  /**
   * `int(a / b)` on exact rationals: the quotient truncated toward zero,
   * unlike Dafny's `/`, which rounds toward minus infinity for positive `b`.
   */
  function TruncDiv(a: int, b: int): (q: int)
    requires b != 0
    ensures Abs(q) == Abs(a) / Abs(b)
    ensures (a < 0) == (b < 0) ==> q >= 0
    ensures (a < 0) != (b < 0) ==> q <= 0
    ensures Abs(a - q * b) < Abs(b)
    ensures a - q * b == 0 || (a - q * b < 0) == (a < 0)
  {
    var magnitude := Abs(a) / Abs(b);
    DivOfNaturals(Abs(a), Abs(b));
    TruncRemainder(a, b);
    if (a < 0) == (b < 0) then magnitude else -magnitude
  }

  /** The quotient of a natural number by a positive one is natural. */
  lemma DivOfNaturals(n: nat, d: nat)
    requires d > 0
    ensures n / d >= 0
  {
  }

  /**
   * What truncation leaves over: the remainder of the magnitudes, carrying the
   * sign of the dividend.
   */
  lemma TruncRemainder(a: int, b: int)
    requires b != 0
    ensures var m := Abs(a) / Abs(b);
            var q := if (a < 0) == (b < 0) then m else -m;
            a - q * b == (if a < 0 then -(Abs(a) % Abs(b)) else Abs(a) % Abs(b))
  {
    var n, d := Abs(a), Abs(b);
    var m := n / d;
    assert n == m * d + n % d;
    if a < 0 && b < 0 {
      assert m * b == -(m * d);
    } else if a < 0 {
      assert -m * b == -(m * d);
    } else if b < 0 {
      assert -m * b == m * d;
    } else {
      assert m * b == m * d;
    }
  }

  /** The score of an entry that holds votes: `int((malicious / total) * 20)`. */
  function TallyScore(malicious: int, clean: int): (r: Result<int, ScoreError>)
    ensures r.Err? <==> malicious + clean == 0
  {
    var total := malicious + clean;
    if total == 0 then Err(DivisionByZero)
    else Ok(TruncDiv(20 * malicious, total))
  }

  /** `community_score(file_hash)` against the table `db`. */
  function CommunityScoreIn(db: map<string, Entry>, fileHash: string): (r: Result<int, ScoreError>)
    ensures fileHash !in db || db[fileHash] == NoVotes ==> r == Ok(0)
    ensures fileHash in db && db[fileHash].Tally? ==>
              (r.Err? <==> db[fileHash].malicious + db[fileHash].clean == 0)
  {
    if fileHash !in db then Ok(0)
    else match db[fileHash]
      case NoVotes => Ok(0)
      case Tally(malicious, clean) => TallyScore(malicious, clean)
  }

  /** `community_score(file_hash)` against `community_db`. */
  function CommunityScore(fileHash: string): (r: Result<int, ScoreError>)
    ensures r.Ok? && 0 <= r.value <= 20
    ensures fileHash !in CommunityDb ==> r == Ok(0)
  {
    CommunityScoreNeverFails(fileHash);
    CommunityScoreIn(CommunityDb, fileHash)
  }

  /**
   * With non-negative counts and at least one vote the score is the malicious
   * share of 20 rounded down, so it lies in 0..20: all-clean gives 0 and
   * all-malicious gives 20.
   */
  lemma TallyScoreInRange(malicious: int, clean: int)
    requires malicious >= 0 && clean >= 0 && malicious + clean > 0
    ensures TallyScore(malicious, clean).Ok?
    ensures TallyScore(malicious, clean).value == (20 * malicious) / (malicious + clean)
    ensures 0 <= TallyScore(malicious, clean).value <= 20
    ensures malicious == 0 ==> TallyScore(malicious, clean).value == 0
    ensures clean == 0 ==> TallyScore(malicious, clean).value == 20
  {
    var total := malicious + clean;
    TruncDivOfNonNegative(20 * malicious, total);
    ShareInRange(malicious, total);
  }

  /** For a non-negative numerator and positive divisor, truncation agrees with Dafny's `/`. */
  lemma TruncDivOfNonNegative(a: int, b: int)
    requires a >= 0 && b > 0
    ensures TruncDiv(a, b) == a / b
  {
  }

  /** `20 * part / total` is a value in 0..20, at its ends exactly when `part` is. */
  lemma ShareInRange(part: int, total: int)
    requires 0 <= part <= total && total > 0
    ensures 0 <= (20 * part) / total <= 20
    ensures part == 0 ==> (20 * part) / total == 0
    ensures part == total ==> (20 * part) / total == 20
  {
    var n := 20 * part;
    var q := n / total;
    assert q * total <= n by {
      assert n == q * total + n % total;
    }
    MulLeCancel(q, 20, total);
  }

  /** Dividing both sides of `x * t <= y * t` by a positive `t`. */
  lemma MulLeCancel(x: int, y: int, t: int)
    requires t > 0 && x * t <= y * t
    ensures x <= y
  {
  }

  /** The score `q` of a tally of `malicious` out of `total` votes satisfies q*total <= 20*malicious < (q+1)*total. */
  lemma TallyScoreIsFloor(malicious: int, clean: int)
    requires malicious >= 0 && clean >= 0 && malicious + clean > 0
    ensures TallyScore(malicious, clean).Ok?
    ensures var q := TallyScore(malicious, clean).value;
            q * (malicious + clean) <= 20 * malicious < (q + 1) * (malicious + clean)
  {
    TallyScoreInRange(malicious, clean);
  }

  /** The shipped table: "hash1" (8 of 9 malicious) scores 17, "hash2" scores 0, anything else 0. */
  lemma CommunityDbScores(fileHash: string)
    ensures CommunityScore("hash1") == Ok(17)
    ensures CommunityScore("hash2") == Ok(0)
    ensures fileHash !in CommunityDb.Keys ==> CommunityScore(fileHash) == Ok(0)
  {
  }

  /** Every hash scores within 0..20 against the shipped table; its entries never divide by zero. */
  lemma CommunityScoreNeverFails(fileHash: string)
    ensures CommunityScoreIn(CommunityDb, fileHash).Ok?
    ensures 0 <= CommunityScoreIn(CommunityDb, fileHash).value <= 20
  {
    if fileHash in CommunityDb {
      var e := CommunityDb[fileHash];
      assert e == Tally(8, 1) || e == Tally(0, 10);
      TallyScoreInRange(e.malicious, e.clean);
    }
  }
}
