/**
 * The GitHub statistics hook (src/hooks/useGitHubData.ts): one state
 * record, loading at first, which a single fetch replaces with either the
 * statistics of the mock data (when the user request fails), an error
 * (when the repository request fails or anything throws), or the
 * statistics of the live data mixed with five professional projects.
 *
 * The two HTTP requests and their JSON bodies are an `Outcome` parameter;
 * `new Date()` is the parameter `now`.
 */
module GitHubData {
  import opened Wrappers
  import opened Text
  import opened Seqs
  import opened GitHubConfig
  import opened RepoStats

  /** `GitHubStats`; a missing user or error is `None`. */
  datatype Stats = Stats(
    user: Option<User>,
    repos: seq<Repo>,
    totalStars: nat,
    totalForks: nat,
    languages: Tally,
    loading: bool,
    error: Option<string>)

  /** The state before the fetch has finished. */
  const Initial: Stats := Stats(None, [], 0, 0, [], true, None)

  /** How the requests of one fetch went. */
  datatype Outcome =
    | UserFailed                                      // the user request answered with a non-OK status
    | ReposFailed(status: nat)                        // the repository request answered with a non-OK status
    | Thrown(message: string)                         // a request or a JSON body threw this error
    | Fetched(user: User, allRepos: seq<Repo>, now: int)

  /** The statistics computed from mock repositories. */
  function MockStatsOf(user: User, repos: seq<Repo>): (s: Stats)
    ensures s.repos == repos && !s.loading && s.error == None
  {
    var stars := StarSum(repos);
    var forks := ForkSum(repos);
    var counts := BumpAll([], MockKeys(repos));
    Stats(
      Some(user.(publicRepos := |repos|, followers := stars / 3, following := forks / 2)),
      repos, stars, forks,
      if repos == [] then [] else Percentages(counts, |repos|),
      false, None)
  }

  /** The state the mock path leaves. */
  function MockStats(): Stats {
    MockStatsOf(MockUser, MockRepos)
  }

  /** The five projects added to the live repositories, undated. */
  const ProfessionalProjects: seq<Repo> := [
    Repo(9991, "Juntea - Events App",
         "Mobile application for event management built with Flutter and Dart",
         47, 12, "Dart", 0, false, false),
    Repo(9992, "Chapiri E-commerce",
         "Full-stack e-commerce platform with React, Node.js and MongoDB",
         32, 8, "TypeScript", 0, false, false),
    Repo(9993, "Goblin Attack Game",
         "2D platformer game developed with Unity and C#",
         28, 6, "C#", 0, false, false),
    Repo(9994, "Portfolio Website",
         "Interactive portfolio website with React, TypeScript and Framer Motion",
         15, 3, "TypeScript", 0, false, false),
    Repo(9995, "Nuevo Mundo E-commerce",
         "Solar energy products e-commerce platform with React and Express",
         22, 5, "JavaScript", 0, false, false)]

  /** Every repository of `repos` dated `now`. */
  function Dated(repos: seq<Repo>, now: int): (r: seq<Repo>)
    ensures |r| == |repos|
    ensures forall i :: 0 <= i < |repos| ==> r[i] == repos[i].(updated := now)
  {
    if repos == [] then [] else [repos[0].(updated := now)] + Dated(repos[1..], now)
  }

  /** The professional projects, each dated `now` (`new Date().toISOString()`). */
  function Professional(now: int): seq<Repo> {
    Dated(ProfessionalProjects, now)
  }

  /** The language counts the live statistics start from. */
  const BaseLanguages: Tally := [
    ("TypeScript", 12), ("JavaScript", 10), ("Dart", 6), ("C#", 5),
    ("Python", 4), ("Java", 3), ("Go", 2), ("Rust", 2),
    ("HTML", 8), ("CSS", 7), ("SQL", 3), ("Shell", 2)]

  const ExtraStars: nat := 156
  const ExtraForks: nat := 42
  const ShownRepos: nat := 8

  /** The relevant live repositories and the professional projects, newest first. */
  function Combined(allRepos: seq<Repo>, now: int): seq<Repo> {
    SortNewestFirst(Filter(allRepos, IsRelevant) + Professional(now))
  }

  /** The state the live path leaves. */
  function LiveStats(user: User, allRepos: seq<Repo>, now: int): (s: Stats)
    ensures !s.loading && s.error == None
  {
    var combined := Combined(allRepos, now);
    Stats(
      Some(Enhanced(user)),
      combined[..if |combined| < ShownRepos then |combined| else ShownRepos],
      StarSum(combined) + ExtraStars,
      ForkSum(combined) + ExtraForks,
      BumpAll(BaseLanguages, LiveKeys(combined)),
      false, None)
  }

  /** The message of the error a failed repository request throws. */
  function ReposError(status: nat): (m: string)
    ensures StartsWith(m, "Failed to fetch repositories: ")
  {
    "Failed to fetch repositories: " + NatToString(status)
  }

  /** The `reduce` that counts mock repositories per language (`Other` when it has none). */
  method CountLanguages(repos: seq<Repo>) returns (counts: Tally)
    ensures counts == BumpAll([], MockKeys(repos))
  {
    counts := [];
    assert repos[0..] == repos;
    for i := 0 to |repos|
      invariant BumpAll(counts, MockKeys(repos[i..])) == BumpAll([], MockKeys(repos))
    {
      assert repos[i..][1..] == repos[i + 1..];
      counts := Bump(counts, LanguageOrOther(repos[i]));
    }
  }

  /** The `reduce` that turns counts into rounded percentages of `total`. */
  method ToPercentages(counts: Tally, total: nat) returns (shares: Tally)
    requires total > 0
    ensures shares == Percentages(counts, total)
  {
    shares := [];
    for i := 0 to |counts|
      invariant |shares| == i
      invariant forall k :: 0 <= k < i ==> shares[k] == (counts[k].0, RoundPercent(counts[k].1, total))
    {
      shares := shares + [(counts[i].0, RoundPercent(counts[i].1, total))];
    }
  }

  /** The `forEach` that adds one to the count of each repository's language, when it has one. */
  method AddLanguages(base: Tally, repos: seq<Repo>) returns (counts: Tally)
    ensures counts == BumpAll(base, LiveKeys(repos))
  {
    counts := base;
    assert repos[0..] == repos;
    for i := 0 to |repos|
      invariant BumpAll(counts, LiveKeys(repos[i..])) == BumpAll(base, LiveKeys(repos))
    {
      var rest := LiveKeys(repos[i + 1..]);
      assert repos[i..][1..] == repos[i + 1..];
      if repos[i].language != "" {
        var keys := [repos[i].language] + rest;
        assert LiveKeys(repos[i..]) == keys;
        assert keys[1..] == rest;
        counts := Bump(counts, repos[i].language);
      } else {
        assert LiveKeys(repos[i..]) == [] + rest == rest;
      }
    }
  }

  /** The mock path, over any user and repository list. */
  method ComputeMock(user: User, repos: seq<Repo>) returns (s: Stats)
    ensures s == MockStatsOf(user, repos)
  {
    var stars := StarSum(repos);
    var forks := ForkSum(repos);
    var counts := CountLanguages(repos);
    var shares: Tally := [];
    if repos != [] {
      shares := ToPercentages(counts, |repos|);
    }
    s := Stats(
      Some(user.(publicRepos := |repos|, followers := stars / 3, following := forks / 2)),
      repos, stars, forks, shares, false, None);
  }

  /** The live path, from the fetched user and repositories. */
  method ComputeLive(user: User, allRepos: seq<Repo>, now: int) returns (s: Stats)
    ensures s == LiveStats(user, allRepos, now)
  {
    var combined := Combined(allRepos, now);
    var languages := AddLanguages(BaseLanguages, combined);
    var shown := if |combined| < ShownRepos then |combined| else ShownRepos;
    s := Stats(
      Some(Enhanced(user)), combined[..shown],
      StarSum(combined) + ExtraStars, ForkSum(combined) + ExtraForks,
      languages, false, None);
  }

  /** The hook's state. */
  class GitHubStats {
    var data: Stats

    /** `useState`: loading, with nothing fetched yet. */
    constructor ()
      ensures data == Initial
    {
      data := Initial;
    }

    /**
     * The fetch effect: whatever the outcome, loading ends; a failed user
     * request falls back on the mock statistics; a failed repository
     * request or a thrown error keeps the previous statistics and records
     * the error; otherwise the live statistics replace the state.
     */
    method Fetch(outcome: Outcome)
      modifies this
      ensures !data.loading
      ensures outcome.UserFailed? ==> data == MockStats()
      ensures outcome.ReposFailed? ==>
        data == old(data).(loading := false, error := Some(ReposError(outcome.status)))
      ensures outcome.Thrown? ==>
        data == old(data).(loading := false, error := Some(outcome.message))
      ensures outcome.Fetched? ==> data == LiveStats(outcome.user, outcome.allRepos, outcome.now)
    {
      data := data.(loading := true, error := None);
      match outcome {
        case UserFailed =>
          data := ComputeMock(MockUser, MockRepos);
        case ReposFailed(status) =>
          data := data.(loading := false, error := Some(ReposError(status)));
        case Thrown(message) =>
          data := data.(loading := false, error := Some(message));
        case Fetched(user, allRepos, now) =>
          data := ComputeLive(user, allRepos, now);
      }
    }
  }

  /** The mock sums: 123 stars and 32 forks over six repositories. */
  lemma MockSums()
    ensures StarSum(MockRepos) == 123 && ForkSum(MockRepos) == 32 && |MockRepos| == 6
  {
  }

  /**
   * The mock statistics: the user's repository count is the list length,
   * followers and following are a third of the stars and half the forks.
   */
  lemma MockValues()
    ensures MockStats().user == Some(User(Username, "Nicolas Paniagua", 6, 41, 16, 0))
    ensures MockStats().totalStars == 123 && MockStats().totalForks == 32
  {
    MockSums();
  }

  /**
   * The mock tally counts each language (`Other` for none) as often as it
   * occurs, and its counts add up to the number of repositories.
   */
  lemma MockTally(repos: seq<Repo>, language: string)
    ensures var counts := BumpAll([], MockKeys(repos));
      && Total(counts) == |repos|
      && Lookup(counts, language) == multiset(MockKeys(repos))[language]
  {
    BumpAllTotal([], MockKeys(repos));
    BumpAllLookup([], MockKeys(repos), language);
  }

  /** The mock tally lists each language once, and never the empty one. */
  lemma MockTallyKeys(repos: seq<Repo>)
    ensures var counts := BumpAll([], MockKeys(repos));
      && NoDup(Keys(counts))
      && "" !in Keys(counts)
  {
    var keys := MockKeys(repos);
    BumpAllNoDup([], keys);
    BumpAllKeys([], keys);
    assert "" !in keys;
  }

  /** Each mock percentage is between 0 and 100, and the languages are listed once each. */
  lemma {:induction false} MockSharesBounded(user: User, repos: seq<Repo>)
    ensures var s := MockStatsOf(user, repos);
      && NoDup(Keys(s.languages))
      && forall i :: 0 <= i < |s.languages| ==> s.languages[i].1 <= 100
  {
    var counts := BumpAll([], MockKeys(repos));
    BumpAllNoDup([], MockKeys(repos));
    BumpAllTotal([], MockKeys(repos));
    if repos != [] {
      var shares := Percentages(counts, |repos|);
      assert Keys(shares) == Keys(counts);
      forall i | 0 <= i < |shares|
        ensures shares[i].1 <= 100
      {
        EntryAtMostTotal(counts, i);
        PercentAtMost100(counts[i].1, |repos|);
      }
    }
  }

  /**
   * What the filter is for: a live repository on show that is not one of the
   * professional projects is no fork, not archived, has stars, forks or a
   * description, and has no test pattern in its name.
   */
  lemma ShownLiveRepoIsRelevant(allRepos: seq<Repo>, now: int, r: Repo)
    requires r in Combined(allRepos, now) && r !in Professional(now)
    ensures r in allRepos && !r.fork && !r.archived
    ensures r.stars > 0 || r.forks > 0 || r.description != ""
    ensures forall p :: p in TestPatterns ==> !Includes(Lower(r.name), p)
  {
    CombinedSpec(allRepos, now);
  }

  /** Dating repositories changes neither their sums nor their languages. */
  lemma {:induction false} DatedKeeps(repos: seq<Repo>, now: int)
    ensures StarSum(Dated(repos, now)) == StarSum(repos)
    ensures ForkSum(Dated(repos, now)) == ForkSum(repos)
    ensures LiveKeys(Dated(repos, now)) == LiveKeys(repos)
  {
    if repos != [] {
      DatedKeeps(repos[1..], now);
      assert Dated(repos, now)[1..] == Dated(repos[1..], now);
    }
  }

  /** The undated professional projects: 144 stars and 34 forks over five projects. */
  lemma ProfessionalProjectSums()
    ensures StarSum(ProfessionalProjects) == 144 && ForkSum(ProfessionalProjects) == 34
    ensures |ProfessionalProjects| == 5
  {
  }

  /** The professional projects bring 144 stars and 34 forks, whatever the date. */
  lemma ProfessionalSums(now: int)
    ensures StarSum(Professional(now)) == 144 && ForkSum(Professional(now)) == 34
    ensures |Professional(now)| == 5
  {
    DatedKeeps(ProfessionalProjects, now);
    ProfessionalProjectSums();
  }

  /** The live sums count every relevant repository and every professional project once, plus the extras. */
  lemma LiveTotals(user: User, allRepos: seq<Repo>, now: int)
    ensures var kept := Filter(allRepos, IsRelevant);
      && LiveStats(user, allRepos, now).totalStars == StarSum(kept) + 144 + ExtraStars
      && LiveStats(user, allRepos, now).totalForks == ForkSum(kept) + 34 + ExtraForks
  {
    var kept := Filter(allRepos, IsRelevant);
    var pro := Professional(now);
    SumsPermutation(Combined(allRepos, now), kept + pro);
    SumsAppend(kept, pro);
    ProfessionalSums(now);
  }

  /**
   * The combined list holds the relevant live repositories and the five
   * professional projects, each once, newest first.
   */
  lemma CombinedSpec(allRepos: seq<Repo>, now: int)
    ensures var combined := Combined(allRepos, now);
      && multiset(combined) == multiset(Filter(allRepos, IsRelevant) + Professional(now))
      && NewestFirst(combined)
      && |combined| == |Filter(allRepos, IsRelevant)| + 5
      && forall r :: r in combined ==> (r in allRepos && IsRelevant(r)) || r in Professional(now)
  {
    var combined := Combined(allRepos, now);
    var joined := Filter(allRepos, IsRelevant) + Professional(now);
    ProfessionalSums(now);
    assert |combined| == |joined| by {
      assert |multiset(combined)| == |multiset(joined)|;
    }
    forall r | r in combined
      ensures (r in allRepos && IsRelevant(r)) || r in Professional(now)
    {
      assert r in multiset(joined);
    }
  }

  /**
   * The live list shows the eight newest of the relevant repositories and
   * professional projects (fewer only when there are fewer), newest first.
   */
  lemma LiveRepos(user: User, allRepos: seq<Repo>, now: int)
    ensures var combined := Combined(allRepos, now);
      var shown := LiveStats(user, allRepos, now).repos;
      && 5 <= |shown| <= ShownRepos
      && (|combined| >= ShownRepos ==> |shown| == ShownRepos)
      && shown == combined[..|shown|]
      && NewestFirst(shown)
      && forall r :: r in shown ==> (r in allRepos && IsRelevant(r)) || r in Professional(now)
  {
    CombinedSpec(allRepos, now);
    var combined := Combined(allRepos, now);
    var n := if |combined| < ShownRepos then |combined| else ShownRepos;
    assert LiveStats(user, allRepos, now).repos == combined[..n];
    PrefixKeeps(combined, n);
  }

  /** A prefix of a newest-first list is newest first, and holds only elements of the list. */
  lemma PrefixKeeps(s: seq<Repo>, n: nat)
    requires n <= |s| && NewestFirst(s)
    ensures NewestFirst(s[..n])
    ensures forall r :: r in s[..n] ==> r in s
  {
    forall r | r in s[..n]
      ensures r in s
    {
      var k :| 0 <= k < n && s[..n][k] == r;
      assert s[k] == r;
    }
  }

  /** The base language counts add up to 64. */
  lemma BaseLanguagesTotal()
    ensures Total(BaseLanguages) == 64
  {
  }

  /**
   * The live language counts: each language's base count plus the number
   * of shown-or-not combined repositories written in it; their total is
   * 64 plus the repositories that have a language.
   */
  lemma LiveLanguages(user: User, allRepos: seq<Repo>, now: int, language: string)
    ensures var counts := LiveStats(user, allRepos, now).languages;
      var keys := LiveKeys(Combined(allRepos, now));
      && Lookup(counts, language) == Lookup(BaseLanguages, language) + multiset(keys)[language]
      && Total(counts) == 64 + |keys|
  {
    var keys := LiveKeys(Combined(allRepos, now));
    BaseLanguagesTotal();
    BumpAllLookup(BaseLanguages, keys, language);
    BumpAllTotal(BaseLanguages, keys);
  }
}
