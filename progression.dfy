/** The user progression record and its store: study minutes, experience,
    levels and the owned-card counter (src/stores/authStore.ts). */
module Progression {
  import opened Basics

  /** The progression record; dates are opaque timestamps supplied by the caller. */
  datatype User = User(
    id: string,
    username: string,
    email: string,
    avatar: Option<string>,
    totalStudyTime: int,
    cardCount: int,
    level: int,
    experience: int,
    joinedAt: int)

  /** `Partial<User>`: a field that is `Some` overrides the stored one. */
  datatype UserPatch = UserPatch(
    id: Option<string>,
    username: Option<string>,
    email: Option<string>,
    avatar: Option<string>,
    totalStudyTime: Option<int>,
    cardCount: Option<int>,
    level: Option<int>,
    experience: Option<int>,
    joinedAt: Option<int>)

  /** What `addStudyTime` reports back. */
  datatype LevelUp = NoLevelUp | LeveledUp(newLevel: int, oldLevel: int)

  function Pow(b: nat, e: nat): (r: nat)
    ensures b >= 1 ==> r >= 1
  {
    if e == 0 then 1 else b * Pow(b, e - 1)
  }

  lemma {:induction false} PowSixAtLeastPowFive(e: nat)
    ensures Pow(6, e) >= Pow(5, e)
  {
    if e > 0 {
      PowSixAtLeastPowFive(e - 1);
    }
  }

  lemma MulMonotone(a: int, b: int, c: int)
    requires a <= b && c >= 0
    ensures a * c <= b * c
  {
    assert b * c - a * c == (b - a) * c;
  }

  /** For a positive divisor, a lower bound on the dividend bounds the quotient. */
  lemma DivAtLeast(x: int, d: int, k: int)
    requires d > 0 && x >= k * d
    ensures x / d >= k
  {
    var q, r := x / d, x % d;
    assert x == q * d + r && 0 <= r < d;
    if q < k {
      MulMonotone(q, k - 1, d);
      assert false;
    }
  }

  /** Experience needed to advance from `level`: `Math.floor(100 * 1.2^(level-1))`,
      computed exactly as `100 * 6^(level-1)` divided by `5^(level-1)`. */
  function RequiredExp(level: int): (r: int)
    requires level >= 1
    ensures r >= 100
  {
    PowSixAtLeastPowFive(level - 1);
    DivAtLeast(100 * Pow(6, level - 1), Pow(5, level - 1), 100);
    100 * Pow(6, level - 1) / Pow(5, level - 1)
  }

  /** Each level needs at least 20 more experience than the one before. */
  lemma RequiredExpStep(level: int)
    requires level >= 1
    ensures RequiredExp(level + 1) >= RequiredExp(level) + 20
  {
    var n := level - 1;
    var a := 100 * Pow(6, n);
    var b := Pow(5, n);
    var q := a / b;
    assert RequiredExp(level) == q;
    assert Pow(6, n + 1) == 6 * Pow(6, n);
    assert Pow(5, n + 1) == 5 * b;
    assert RequiredExp(level + 1) == (6 * a) / (5 * b);
    assert a >= q * b by {
      assert a == q * b + a % b;
    }
    assert a >= 100 * b by {
      PowSixAtLeastPowFive(n);
    }
    assert 6 * a >= (q + 20) * (5 * b) by {
      assert (q + 20) * (5 * b) == 5 * (q * b) + 100 * b;
    }
    DivAtLeast(6 * a, 5 * b, q + 20);
  }

  /** The required-experience curve never decreases. */
  lemma {:induction false} RequiredExpMonotone(lo: int, hi: int)
    requires 1 <= lo <= hi
    ensures RequiredExp(lo) <= RequiredExp(hi)
    decreases hi - lo
  {
    if lo < hi {
      RequiredExpStep(lo);
      RequiredExpMonotone(lo + 1, hi);
    }
  }

  lemma RequiredExpFirstLevels()
    ensures RequiredExp(1) == 100 && RequiredExp(2) == 120 && RequiredExp(3) == 144
  {
  }

  /** Total experience consumed by the level-ups from `lo` up to (excluding) `hi`. */
  function SumRequired(lo: int, hi: int): int
    requires 1 <= lo <= hi
    decreases hi - lo
  {
    if lo == hi then 0 else RequiredExp(lo) + SumRequired(lo + 1, hi)
  }

  /** The level-up normalisation: subtract the threshold of the current level
      and advance while the running total reaches it. */
  function Normalize(level: int, exp: int): (r: (int, int))
    requires level >= 1
    ensures r.0 >= level
    ensures r.1 < RequiredExp(r.0)
    ensures exp >= 0 ==> r.1 >= 0
    ensures exp == SumRequired(level, r.0) + r.1
    ensures r.0 > level <==> exp >= RequiredExp(level)
    decreases exp
  {
    if exp >= RequiredExp(level) then Normalize(level + 1, exp - RequiredExp(level))
    else (level, exp)
  }

  /** Experience earned for `minutes` at `level`: base, level bonus and streak bonus. */
  function GainedExp(minutes: int, level: int): (g: int)
    ensures minutes >= 0 && level >= 0 ==> 0 <= g
    ensures minutes >= 0 && level >= 0 ==> g >= minutes / 10 + level / 2
  {
    minutes / 10 + level / 2 + (minutes / 30) * 2
  }

  lemma FloorOfQuotient(m: int, d: int)
    requires d > 0
    ensures (m as real / d as real).Floor == m / d
  {
    var q, r := m / d, m % d;
    assert m == q * d + r;
    assert m as real == q as real * d as real + r as real;
    assert m as real / d as real == q as real + r as real / d as real;
    assert 0.0 <= r as real / d as real < 1.0;
  }

  /** The integer formula agrees with the source's `Math.floor` terms on exact reals. */
  lemma GainedExpIsFloorSum(minutes: int, level: int)
    ensures GainedExp(minutes, level)
         == (minutes as real / 10.0).Floor + (level as real * 0.5).Floor
            + (minutes as real / 30.0).Floor * 2
  {
    FloorOfQuotient(minutes, 10);
    FloorOfQuotient(minutes, 30);
    FloorOfQuotient(level, 2);
    assert level as real * 0.5 == level as real / 2.0;
  }

  /** `addStudyTime` applied to a logged-in user: the new record and the report. */
  function Study(u: User, minutes: int): (r: (User, LevelUp))
    requires u.level >= 1
    ensures r.0.totalStudyTime == u.totalStudyTime + minutes
    ensures r.0.level >= u.level
    ensures r.0.experience < RequiredExp(r.0.level)
    ensures u.experience + GainedExp(minutes, u.level) >= 0 ==> r.0.experience >= 0
    ensures u.experience + GainedExp(minutes, u.level)
         == SumRequired(u.level, r.0.level) + r.0.experience
    ensures r.1.LeveledUp? <==> r.0.level > u.level
    ensures r.1.LeveledUp? ==> r.1.oldLevel == u.level && r.1.newLevel == r.0.level
    ensures r.0.(totalStudyTime := u.totalStudyTime, level := u.level, experience := u.experience) == u
  {
    var (lvl, exp) := Normalize(u.level, u.experience + GainedExp(minutes, u.level));
    (u.(totalStudyTime := u.totalStudyTime + minutes, level := lvl, experience := exp),
     if lvl > u.level then LeveledUp(lvl, u.level) else NoLevelUp)
  }

  /** The worked example: level 1 with 99 experience, 20 minutes gains 2 and reaches level 2 with 1. */
  lemma StudyLevelUpExample(u: User)
    requires u.level == 1 && u.experience == 99
    ensures Study(u, 20).0.level == 2 && Study(u, 20).0.experience == 1
    ensures Study(u, 20).1 == LeveledUp(2, 1)
  {
    assert GainedExp(20, 1) == 2;
    RequiredExpFirstLevels();
    assert Normalize(1, 101) == Normalize(2, 1);
  }

  /** Level 1 with no experience and 30 minutes gains 5 and stays at level 1. */
  lemma StudyNoLevelUpExample(u: User)
    requires u.level == 1 && u.experience == 0
    ensures Study(u, 30).0.level == 1 && Study(u, 30).0.experience == 5
    ensures Study(u, 30).1 == NoLevelUp
  {
    assert GainedExp(30, 1) == 5;
    RequiredExpFirstLevels();
  }

  /** `addStudyTime` on the store's optional user: no effect when logged out. */
  function AfterStudy(user: Option<User>, minutes: int): (r: Option<User>)
    requires user.Some? ==> user.value.level >= 1
    ensures r.Some? <==> user.Some?
    ensures r.Some? ==> r.value.totalStudyTime == user.value.totalStudyTime + minutes
                        && r.value.level >= user.value.level
                        && r.value.experience < RequiredExp(r.value.level)
  {
    if user.Some? then Some(Study(user.value, minutes).0) else None
  }

  /** `addCard(count)` on the store's optional user. */
  function AfterAddCard(user: Option<User>, count: int): (r: Option<User>)
    ensures r.Some? <==> user.Some?
    ensures user.Some? ==> r.value == user.value.(cardCount := user.value.cardCount + count)
  {
    if user.Some? then Some(user.value.(cardCount := user.value.cardCount + count)) else None
  }

  /** `{ ...user, ...userData }`. */
  function Merge(u: User, p: UserPatch): User {
    User(
      p.id.GetOr(u.id),
      p.username.GetOr(u.username),
      p.email.GetOr(u.email),
      if p.avatar.Some? then p.avatar else u.avatar,
      p.totalStudyTime.GetOr(u.totalStudyTime),
      p.cardCount.GetOr(u.cardCount),
      p.level.GetOr(u.level),
      p.experience.GetOr(u.experience),
      p.joinedAt.GetOr(u.joinedAt))
  }

  const NoChanges: UserPatch := UserPatch(None, None, None, None, None, None, None, None, None)

  /** An empty patch changes nothing, and applying a patch twice is applying it once. */
  lemma MergeLaws(u: User, p: UserPatch)
    ensures Merge(u, NoChanges) == u
    ensures Merge(Merge(u, p), p) == Merge(u, p)
  {
  }

  /** The authentication/progression store. Login and registration are not part
      of this model; a user record enters the store through the constructor
      argument standing for a completed login. */
  class AuthStore {
    var user: Option<User>
    var isAuthenticated: bool
    var isLoading: bool

    /** Levels start at 1: every user record the store builds has level 3
        (login) or 1 (registration), and no caller writes a level through
        `updateUser`. The requirement curve is modelled from level 1 on. */
    predicate LevelOk()
      reads this
    {
      user.Some? ==> user.value.level >= 1
    }

    constructor (initial: Option<User>)
      ensures user == initial && isAuthenticated == initial.Some? && !isLoading
    {
      user := initial;
      isAuthenticated := initial.Some?;
      isLoading := false;
    }

    method Logout()
      modifies this
      ensures user == None && !isAuthenticated && isLoading == old(isLoading)
    {
      user := None;
      isAuthenticated := false;
    }

    method UpdateUser(patch: UserPatch)
      modifies this
      ensures user == if old(user).Some? then Some(Merge(old(user).value, patch)) else None
      ensures isAuthenticated == old(isAuthenticated) && isLoading == old(isLoading)
    {
      if user.Some? {
        user := Some(Merge(user.value, patch));
      }
    }

    method AddStudyTime(minutes: int) returns (outcome: LevelUp)
      requires LevelOk()
      modifies this
      ensures LevelOk()
      ensures user == AfterStudy(old(user), minutes)
      ensures outcome == if old(user).Some? then Study(old(user).value, minutes).1 else NoLevelUp
      ensures isAuthenticated == old(isAuthenticated) && isLoading == old(isLoading)
    {
      outcome := NoLevelUp;
      if user.Some? {
        var u := user.value;
        var newTotalTime := u.totalStudyTime + minutes;
        var baseExperience := minutes / 10;
        var levelBonus := u.level / 2;
        var streakBonus := (minutes / 30) * 2;
        var newExperience := u.experience + baseExperience + levelBonus + streakBonus;
        var currentLevel := u.level;
        var currentExp := newExperience;
        while currentExp >= RequiredExp(currentLevel)
          invariant currentLevel >= u.level
          invariant Normalize(currentLevel, currentExp) == Normalize(u.level, newExperience)
          decreases currentExp
        {
          currentExp := currentExp - RequiredExp(currentLevel);
          currentLevel := currentLevel + 1;
        }
        user := Some(u.(totalStudyTime := newTotalTime, experience := currentExp, level := currentLevel));
        if currentLevel > u.level {
          outcome := LeveledUp(currentLevel, u.level);
        }
      }
    }

    method AddCard(count: int := 1)
      modifies this
      ensures user == AfterAddCard(old(user), count)
      ensures isAuthenticated == old(isAuthenticated) && isLoading == old(isLoading)
    {
      if user.Some? {
        user := Some(user.value.(cardCount := user.value.cardCount + count));
      }
    }
  }
}
