/**
 * The aura classifier `determineAura` of src/pages/Result.jsx: a guard for
 * inexperienced accounts, a bio override for open-source contributors and a
 * first-match lookup in a table of half-open follower bands.
 *
 * Point multipliers are kept in tenths (`pointMultiplier: 0.7` is 7), so all
 * arithmetic on them is exact.
 */
module Aura {
  import opened Wrappers
  import opened Text

  /** The fields of one repository record that the core reads. */
  datatype Repo = Repo(stargazersCount: nat, fork: bool)

  /** The fields of the profile record that the core reads; `bio` may be null. */
  datatype Profile = Profile(followers: nat, publicRepos: nat, bio: Option<string>)

  /** The `type` labels a category can carry. */
  datatype AuraType =
    | Noob
    | CommunityBuilder
    | GlobalTechTitan
    | TechVisionary
    | ThoughtLeader
    | TechLuminary
    | InfluentialInnovator
    | RisingInfluencer
    | TechInnovator
    | GrowingContributor
    | EmergingTalent
    | BuddingDeveloper
    | AspiringDeveloper

  // TypeLabel, Description and Color are display data only: the record handed
  // to the page carries them, and no decision reads them.

  /** The text shown for each `type`. */
  function TypeLabel(t: AuraType): string {
    match t
    case Noob => "Noob"
    case CommunityBuilder => "Community Builder"
    case GlobalTechTitan => "Global Tech Titan"
    case TechVisionary => "Tech Visionary"
    case ThoughtLeader => "Thought Leader"
    case TechLuminary => "Tech Luminary"
    case InfluentialInnovator => "Influential Innovator"
    case RisingInfluencer => "Rising Influencer"
    case TechInnovator => "Tech Innovator"
    case GrowingContributor => "Growing Contributor"
    case EmergingTalent => "Emerging Talent"
    case BuddingDeveloper => "Budding Developer"
    case AspiringDeveloper => "Aspiring Developer"
  }

  /**
   * A category record: its `type`, the `auraAnalysis` line (present only on
   * the record the guard returns) and `pointMultiplier` in tenths (absent on
   * the table's own Noob entry). Description and colour depend on the type
   * alone; see Description and Color.
   */
  datatype Category = Category(kind: AuraType, auraAnalysis: Option<string>, pointMultiplier: Option<nat>)

  /** The `description` string of each type (opaque display text). */
  function Description(t: AuraType): string {
    match t
    case Noob => "You need to work hard, LFG!"
    case CommunityBuilder => "Passionate about collaborative development and knowledge sharing."
    case GlobalTechTitan => "A legendary developer with massive global influence and unprecedented impact."
    case TechVisionary =>
      "An extraordinary developer shaping the future of technology with groundbreaking contributions."
    case ThoughtLeader => "A highly influential developer with significant industry recognition and impact."
    case TechLuminary =>
      "A prominent developer with substantial community influence and innovative contributions."
    case InfluentialInnovator =>
      "A recognized developer with significant contributions and growing community impact."
    case RisingInfluencer =>
      "An emerging developer with substantial potential and increasing community recognition."
    case TechInnovator => "A passionate developer making significant strides in their technological journey."
    case GrowingContributor => "A dedicated developer with increasing impact and community engagement."
    case EmergingTalent => "A promising developer building their reputation and expanding their skills."
    case BuddingDeveloper => "An enthusiastic developer starting to make their mark in the tech community."
    case AspiringDeveloper => "A passionate beginner taking their first steps in the world of technology."
  }

  /** The `color` style token of each type (opaque to the core). */
  function Color(t: AuraType): string {
    match t
    case Noob => "bg-gradient-to-r from-gray-500 to-red-500"
    case CommunityBuilder => "bg-gradient-to-r from-green-600 to-teal-500"
    case GlobalTechTitan => "bg-gradient-to-r from-red-800 to-yellow-800"
    case TechVisionary => "bg-gradient-to-r from-purple-800 to-indigo-800"
    case ThoughtLeader => "bg-gradient-to-r from-blue-800 to-purple-800"
    case TechLuminary => "bg-gradient-to-r from-green-800 to-blue-800"
    case InfluentialInnovator => "bg-gradient-to-r from-orange-800 to-red-800"
    case RisingInfluencer => "bg-gradient-to-r from-yellow-700 to-orange-700"
    case TechInnovator => "bg-gradient-to-r from-teal-700 to-green-700"
    case GrowingContributor => "bg-gradient-to-r from-indigo-700 to-purple-700"
    case EmergingTalent => "bg-gradient-to-r from-pink-700 to-red-700"
    case BuddingDeveloper => "bg-gradient-to-r from-green-700 to-teal-700"
    case AspiringDeveloper => "bg-gradient-to-r from-gray-700 to-black"
  }

  /** The upper end of a band: a number, or JavaScript's `Infinity`. */
  datatype Bound = Finite(n: int) | Infinity

  /** One entry of `auraCategories`: the follower range `[min, max)` and its category. */
  datatype Band = Band(min: int, max: Bound, category: Category)

  /** The test `followers >= min && followers < max`; nothing is `>= Infinity`. */
  predicate InBand(b: Band, followers: int): (inside: bool)
    ensures inside ==> b.min <= followers
    ensures b.max.Finite? && followers >= b.max.n ==> !inside
    ensures b.max.Infinity? && b.min <= followers ==> inside
  {
    b.min <= followers && (b.max.Infinity? || followers < b.max.n)
  }

  /** `auraCategory.pointMultiplier || 1`, in tenths: absent or zero falls back to 1. */
  function Multiplier(c: Category): (k: nat)
    ensures k > 0
    ensures c.pointMultiplier.Some? && c.pointMultiplier.value != 0 ==> k == c.pointMultiplier.value
    ensures c.pointMultiplier.None? || c.pointMultiplier.value == 0 ==> k == 10
  {
    match c.pointMultiplier
    case Some(m) => if m == 0 then 10 else m
    case None => 10
  }

  /** The record returned for accounts with at most two followers or no repositories. */
  const NoobCategory: Category := Category(Noob, Some("You need to grind"), Some(1))

  /** The record returned when the bio mentions open source or contributing. */
  const CommunityBuilderCategory: Category := Category(CommunityBuilder, None, Some(7))

  /** The guard's record is Noob, carries its analysis line and scores with multiplier 0.1. */
  lemma NoobRecord()
    ensures NoobCategory.kind == Noob && TypeLabel(NoobCategory.kind) == "Noob"
    ensures NoobCategory.auraAnalysis == Some("You need to grind")
    ensures Multiplier(NoobCategory) == 1
  {
  }

  /** The override's record is Community Builder and scores with multiplier 0.7. */
  lemma CommunityBuilderRecord()
    ensures CommunityBuilderCategory.kind == CommunityBuilder
    ensures TypeLabel(CommunityBuilderCategory.kind) == "Community Builder"
    ensures CommunityBuilderCategory.auraAnalysis.None? && Multiplier(CommunityBuilderCategory) == 7
  {
  }

  /** The number of leading entries of AuraCategories that form the follower ladder. */
  const LadderSize: nat := 11

  /** The follower ladder: the first eleven entries of `auraCategories`. */
  const Ladder: seq<Band> := [
    Band(1_000_000, Infinity, Category(GlobalTechTitan, None, Some(15))),
    Band(200_000, Finite(1_000_000), Category(TechVisionary, None, Some(13))),
    Band(100_000, Finite(200_000), Category(ThoughtLeader, None, Some(12))),
    Band(50_000, Finite(100_000), Category(TechLuminary, None, Some(11))),
    Band(20_000, Finite(50_000), Category(InfluentialInnovator, None, Some(10))),
    Band(10_000, Finite(20_000), Category(RisingInfluencer, None, Some(9))),
    Band(5_000, Finite(10_000), Category(TechInnovator, None, Some(8))),
    Band(1_000, Finite(5_000), Category(GrowingContributor, None, Some(7))),
    Band(500, Finite(1_000), Category(EmergingTalent, None, Some(6))),
    Band(100, Finite(500), Category(BuddingDeveloper, None, Some(5))),
    Band(0, Finite(100), Category(AspiringDeveloper, None, Some(4)))
  ]

  /** The table's last entry, `[0, 2)` Noob, which has no `pointMultiplier`. */
  const NoobBand: Band := Band(0, Finite(2), Category(Noob, None, None))

  /** The `auraCategories` table, in the order `find` walks it. */
  const AuraCategories: seq<Band> := Ladder + [NoobBand]

  // ---------------------------------------------------------------------
  // Array.prototype.find
  // ---------------------------------------------------------------------

  /**
   * `bands.find(b => InBand(b, followers))`, searching from index `from`; the
   * result is the index of the element found.
   */
  function FindBand(bands: seq<Band>, followers: int, from: nat): (r: Option<nat>)
    requires from <= |bands|
    ensures r.Some? ==> from <= r.value < |bands| && InBand(bands[r.value], followers)
    ensures r.Some? ==> forall j :: from <= j < r.value ==> !InBand(bands[j], followers)
    ensures r.None? ==> forall j :: from <= j < |bands| ==> !InBand(bands[j], followers)
    decreases |bands| - from
  {
    if from == |bands| then None
    else if InBand(bands[from], followers) then Some(from)
    else FindBand(bands, followers, from + 1)
  }

  // ---------------------------------------------------------------------
  // The follower ladder
  // ---------------------------------------------------------------------

  /**
   * The first `n` bands are a ladder: the first is unbounded above, each
   * later one ends where its predecessor begins, and none is empty.
   */
  predicate Contiguous(bands: seq<Band>, n: nat) {
    && 0 < n <= |bands|
    && bands[0].max == Infinity
    && (forall i :: 0 < i < n ==> bands[i].max == Finite(bands[i - 1].min))
    && (forall i :: 0 < i < n ==> bands[i].min < bands[i - 1].min)
  }

  /** Along the first `n` bands the multiplier strictly falls. */
  predicate MultipliersFall(bands: seq<Band>, n: nat)
    requires n <= |bands|
  {
    forall i :: 0 < i < n ==> Multiplier(bands[i].category) < Multiplier(bands[i - 1].category)
  }

  /** A later band of a ladder lies wholly below an earlier one. */
  lemma {:induction false} LaterBandBelow(bands: seq<Band>, n: nat, i: nat, j: nat)
    requires Contiguous(bands, n) && i < j < n
    ensures bands[j].max.Finite? && bands[j].max.n <= bands[i].min
    decreases j - i
  {
    assert bands[j].max == Finite(bands[j - 1].min);
    if j > i + 1 {
      LaterBandBelow(bands, n, i, j - 1);
      assert bands[j - 1].max == Finite(bands[j - 2].min);
      assert bands[j - 1].min < bands[j - 2].min;
    }
  }

  /** No follower count lies in two bands of a ladder. */
  lemma LadderDisjoint(bands: seq<Band>, n: nat, i: nat, j: nat, followers: int)
    requires Contiguous(bands, n) && i < n && j < n
    requires InBand(bands[i], followers) && InBand(bands[j], followers)
    ensures i == j
  {
    if i < j {
      LaterBandBelow(bands, n, i, j);
    } else if j < i {
      LaterBandBelow(bands, n, j, i);
    }
  }

  /** More followers never land in a lower band of a ladder. */
  lemma LadderOrdered(bands: seq<Band>, n: nat, i: nat, j: nat, f1: int, f2: int)
    requires Contiguous(bands, n) && i < n && j < n && f1 <= f2
    requires InBand(bands[i], f1) && InBand(bands[j], f2)
    ensures j <= i
  {
    if i < j {
      LaterBandBelow(bands, n, i, j);
    }
  }

  /** Every count at or above the lowest band's minimum lies in some band at or after `from`. */
  lemma {:induction false} LadderCovers(bands: seq<Band>, n: nat, followers: int, from: nat)
    requires Contiguous(bands, n) && from < n
    requires followers >= bands[n - 1].min
    requires from > 0 ==> followers < bands[from - 1].min
    ensures exists i :: from <= i < n && InBand(bands[i], followers)
    decreases n - from
  {
    if followers >= bands[from].min {
      assert InBand(bands[from], followers);
    } else {
      LadderCovers(bands, n, followers, from + 1);
    }
  }

  /** Along a ladder whose multipliers fall step by step, they fall between any two bands. */
  lemma {:induction false} MultipliersFallFar(bands: seq<Band>, n: nat, i: nat, j: nat)
    requires n <= |bands| && MultipliersFall(bands, n) && i <= j < n
    ensures Multiplier(bands[j].category) <= Multiplier(bands[i].category)
    decreases j - i
  {
    if i < j {
      MultipliersFallFar(bands, n, i, j - 1);
    }
  }

  /** The table is the ladder followed by the Noob entry. */
  lemma AuraCategoriesLayout()
    ensures |AuraCategories| == LadderSize + 1 && AuraCategories[LadderSize] == NoobBand
    ensures forall i :: 0 <= i < LadderSize ==> AuraCategories[i] == Ladder[i]
  {
  }

  /** Each ladder band ends where the one before it begins. */
  lemma LadderLinks()
    ensures |Ladder| == LadderSize
    ensures forall i :: 0 < i < LadderSize ==> Ladder[i].max == Finite(Ladder[i - 1].min)
  {
  }

  /** The ladder's lower ends fall strictly, from 1 000 000 down to 0. */
  lemma LadderMinsFall()
    ensures |Ladder| == LadderSize
    ensures Ladder[0].max == Infinity && Ladder[LadderSize - 1].min == 0
    ensures forall i :: 0 < i < LadderSize ==> Ladder[i].min < Ladder[i - 1].min
  {
  }

  /** The ladder's bands are contiguous and end at 0. */
  lemma LadderContiguous()
    ensures |Ladder| == LadderSize
    ensures Contiguous(Ladder, LadderSize) && Ladder[LadderSize - 1].min == 0
  {
    LadderLinks();
    LadderMinsFall();
  }

  /** The ladder's multipliers fall from 1.5 to 0.4. */
  lemma LadderMultipliers()
    ensures MultipliersFall(Ladder, LadderSize)
  {
  }

  /** No ladder band is Noob, and each carries a multiplier of at least 0.4. */
  lemma LadderCategories()
    ensures forall i :: 0 <= i < LadderSize ==>
      Ladder[i].category.kind != Noob &&
      Ladder[i].category.pointMultiplier.Some? &&
      4 <= Ladder[i].category.pointMultiplier.value
  {
  }

  /** The facts about the constant table that the classifier relies on. */
  lemma AuraCategoriesShape()
    ensures |AuraCategories| == LadderSize + 1 && AuraCategories[LadderSize] == NoobBand
    ensures Contiguous(AuraCategories, LadderSize)
    ensures AuraCategories[LadderSize - 1].min == 0
    ensures MultipliersFall(AuraCategories, LadderSize)
    ensures forall i :: 0 <= i < LadderSize ==>
      AuraCategories[i].category.kind != Noob &&
      AuraCategories[i].category.pointMultiplier.Some? &&
      4 <= AuraCategories[i].category.pointMultiplier.value
  {
    AuraCategoriesLayout();
    LadderContiguous();
    LadderMultipliers();
    LadderCategories();
  }

  /**
   * On a table whose first `n` entries form a ladder reaching down to
   * `followers`, `find` stops inside the ladder, at its only band holding
   * `followers`.
   */
  lemma FindInLadder(bands: seq<Band>, n: nat, followers: int)
    requires Contiguous(bands, n) && followers >= bands[n - 1].min
    ensures var r := FindBand(bands, followers, 0);
      && r.Some? && r.value < n && InBand(bands[r.value], followers)
      && forall j :: 0 <= j < n && InBand(bands[j], followers) ==> j == r.value
  {
    LadderCovers(bands, n, followers, 0);
    var k :| 0 <= k < n && InBand(bands[k], followers);
    var i := FindBand(bands, followers, 0).value;
    assert i <= k;
    LadderDisjoint(bands, n, i, k, followers);
    forall j | 0 <= j < n && InBand(bands[j], followers)
      ensures j == i
    {
      LadderDisjoint(bands, n, j, k, followers);
    }
  }

  /**
   * For every non-negative follower count, `find` stops inside the ladder, at
   * the only ladder band holding that count; the `[0, 2)` Noob entry and the
   * `|| auraCategories[length - 1]` fallback are never reached.
   */
  lemma BandLookup(followers: nat)
    ensures var r := FindBand(AuraCategories, followers, 0);
      && r.Some? && r.value < LadderSize && InBand(AuraCategories[r.value], followers)
      && forall j :: 0 <= j < LadderSize && InBand(AuraCategories[j], followers) ==> j == r.value
  {
    AuraCategoriesShape();
    FindInLadder(AuraCategories, LadderSize, followers);
  }

  // ---------------------------------------------------------------------
  // determineAura
  // ---------------------------------------------------------------------

  /** `repos.reduce((sum, repo) => sum + repo.stargazers_count, 0)`, a left fold. */
  function TotalStars(repos: seq<Repo>): (total: nat)
    ensures repos == [] ==> total == 0
    ensures forall i :: 0 <= i < |repos| ==> repos[i].stargazersCount <= total
  {
    if repos == [] then 0
    else TotalStars(repos[..|repos| - 1]) + repos[|repos| - 1].stargazersCount
  }

  /** `repos.filter(repo => repo.fork).length`. */
  function ForkCount(repos: seq<Repo>): (n: nat)
    ensures n <= |repos|
  {
    if repos == [] then 0
    else ForkCount(repos[..|repos| - 1]) + (if repos[|repos| - 1].fork then 1 else 0)
  }

  /** The early return: at most two followers, or no repositories at all. */
  predicate NoobGuard(p: Profile, repos: seq<Repo>): (noob: bool)
    ensures !noob ==> 3 <= p.followers && 0 < |repos|
  {
    p.followers <= 2 || |repos| == 0
  }

  /**
   * `bio && (bio.toLowerCase().includes("open source") ||
   * bio.toLowerCase().includes("contributor"))`; a null or empty bio is falsy.
   */
  predicate BioOverride(bio: Option<string>): (matches: bool)
    ensures matches ==> bio.Some? && |bio.value| >= |"open source"| == |"contributor"|
  {
    && bio.Some?
    && bio.value != ""
    && (Includes(ToLower(bio.value), "open source") || Includes(ToLower(bio.value), "contributor"))
  }

  /**
   * `determineAura(profile, repos)`. The star total and the fork ratio are
   * computed as in the source and not used; the ratio's division is safe
   * because the guard has already rejected an empty repository list.
   */
  function DetermineAura(p: Profile, repos: seq<Repo>): (r: Category)
    ensures NoobGuard(p, repos) ==> r == NoobCategory
    ensures !NoobGuard(p, repos) && BioOverride(p.bio) ==> r == CommunityBuilderCategory
    ensures !NoobGuard(p, repos) && !BioOverride(p.bio) ==>
      exists i :: 0 <= i < LadderSize && InBand(AuraCategories[i], p.followers) && r == AuraCategories[i].category
    ensures r.kind == Noob <==> NoobGuard(p, repos)
    ensures r.pointMultiplier.Some? && r.pointMultiplier.value > 0
    ensures !NoobGuard(p, repos) ==> Multiplier(r) >= 4
  {
    if p.followers <= 2 || |repos| == 0 then
      NoobCategory
    else
      var totalStars := TotalStars(repos);
      var forkRatio := ForkCount(repos) as real / |repos| as real;
      if BioOverride(p.bio) then
        CommunityBuilderCategory
      else
        BandLookup(p.followers);
        AuraCategoriesShape();
        match FindBand(AuraCategories, p.followers, 0)
        case Some(j) => AuraCategories[j].category
        case None => NoobBand.category
  }

  // ---------------------------------------------------------------------
  // Properties of the classifier
  // ---------------------------------------------------------------------

  /** The classification reads only the follower count, the bio and whether there are repositories. */
  lemma DetermineAuraDependsOnly(p1: Profile, repos1: seq<Repo>, p2: Profile, repos2: seq<Repo>)
    requires p1.followers == p2.followers && p1.bio == p2.bio
    requires |repos1| == 0 <==> |repos2| == 0
    ensures DetermineAura(p1, repos1) == DetermineAura(p2, repos2)
  {
    if !NoobGuard(p1, repos1) && !BioOverride(p1.bio) {
      BandLookup(p1.followers);
    }
  }

  /**
   * With the bio and the emptiness of the repository list held fixed, the
   * multiplier never falls as the follower count grows.
   */
  lemma MultiplierMonotone(p1: Profile, repos1: seq<Repo>, p2: Profile, repos2: seq<Repo>)
    requires p1.followers <= p2.followers && p1.bio == p2.bio
    requires |repos1| == 0 <==> |repos2| == 0
    ensures Multiplier(DetermineAura(p1, repos1)) <= Multiplier(DetermineAura(p2, repos2))
  {
    if !NoobGuard(p1, repos1) && !BioOverride(p1.bio) {
      BandLookup(p1.followers);
      BandLookup(p2.followers);
      AuraCategoriesShape();
      var i := FindBand(AuraCategories, p1.followers, 0).value;
      var j := FindBand(AuraCategories, p2.followers, 0).value;
      LadderOrdered(AuraCategories, LadderSize, i, j, p1.followers, p2.followers);
      MultipliersFallFar(AuraCategories, LadderSize, j, i);
    }
  }

  /** The bio test ignores case: lower-casing the bio first changes nothing. */
  lemma BioOverrideIgnoresCase(bio: string)
    ensures BioOverride(Some(bio)) == BioOverride(Some(ToLower(bio)))
  {
    ToLowerIdempotent(bio);
  }

  /** Two bios that differ only in the case of their letters get the same answer. */
  lemma BioOverrideSameLower(bio1: string, bio2: string)
    requires ToLower(bio1) == ToLower(bio2)
    ensures BioOverride(Some(bio1)) == BioOverride(Some(bio2))
  {
    assert |bio1| == |ToLower(bio1)| == |ToLower(bio2)| == |bio2|;
  }

  /** The spelling "Open Source Contributor" triggers the override. */
  lemma OpenSourceContributorBio(bio: string)
    requires bio == "Open Source Contributor"
    ensures BioOverride(Some(bio))
  {
    var lower := ToLower(bio);
    assert lower[..11] == "open source";
    IncludesAt(lower, "open source", 0);
  }

  /** A bio mentioning "Open Source Contributor" overrides even 200 000 followers. */
  lemma CommunityBuilderOverridesBands(p: Profile, repos: seq<Repo>)
    requires p.followers == 200_000 && p.bio == Some("Open Source Contributor") && |repos| > 0
    ensures DetermineAura(p, repos).kind == CommunityBuilder
  {
    OpenSourceContributorBio(p.bio.value);
  }

  /** One follower forces Noob however many stars there are. */
  lemma FewFollowersAreNoob()
    ensures DetermineAura(Profile(1, 1, None), [Repo(999_999, false)]).kind == Noob
  {
  }

  /** No repositories force Noob however many followers there are. */
  lemma NoReposAreNoob()
    ensures DetermineAura(Profile(50_000, 0, None), []).kind == Noob
  {
  }

  /** 120 followers and a blank bio land in the `[100, 500)` band. */
  lemma HundredTwentyFollowersBudding()
    ensures DetermineAura(Profile(120, 25, Some("")), [Repo(1_500, false)]).kind == BuddingDeveloper
  {
    BandLookup(120);
    assert InBand(AuraCategories[9], 120);
  }
}
