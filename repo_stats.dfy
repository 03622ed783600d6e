/**
 * The aggregations of the GitHub statistics hook (src/hooks/useGitHubData.ts):
 * star and fork sums, per-language tallies kept in insertion order (as a
 * JavaScript object's entries are), rounded percentages, the relevance
 * filter, the newest-first sort and the enhanced user record.
 */
module RepoStats {
  import opened Text
  import opened Seqs
  import opened GitHubConfig

  /** `repos.reduce((sum, repo) => sum + repo.stargazers_count, 0)`. */
  function StarSum(repos: seq<Repo>): nat {
    if repos == [] then 0 else repos[0].stars + StarSum(repos[1..])
  }

  /** `repos.reduce((sum, repo) => sum + repo.forks_count, 0)`. */
  function ForkSum(repos: seq<Repo>): nat {
    if repos == [] then 0 else repos[0].forks + ForkSum(repos[1..])
  }

  /** The sums split over a concatenation, so they do not depend on how a list is cut. */
  lemma {:induction false} SumsAppend(a: seq<Repo>, b: seq<Repo>)
    ensures StarSum(a + b) == StarSum(a) + StarSum(b)
    ensures ForkSum(a + b) == ForkSum(a) + ForkSum(b)
  {
    if a == [] {
      assert a + b == b;
    } else {
      assert (a + b)[0] == a[0];
      assert (a + b)[1..] == a[1..] + b;
      SumsAppend(a[1..], b);
    }
  }

  /** Taking one element out of a list takes its stars and forks out of the sums. */
  lemma SumsRemove(b: seq<Repo>, i: nat)
    requires i < |b|
    ensures StarSum(b) == StarSum(b[..i] + b[i + 1..]) + b[i].stars
    ensures ForkSum(b) == ForkSum(b[..i] + b[i + 1..]) + b[i].forks
  {
    var front, back := b[..i], b[i + 1..];
    assert b == front + b[i..];
    assert b[i..] == [b[i]] + back;
    SumsAppend(front, b[i..]);
    SumsAppend([b[i]], back);
    SumsAppend(front, back);
    assert [b[i]][..0] == [];
  }

  /** Taking one element out of a list takes it out of the list's multiset. */
  lemma RemoveOne<T>(s: seq<T>, i: nat)
    requires i < |s|
    ensures multiset(s) == multiset(s[..i] + s[i + 1..]) + multiset{s[i]}
  {
    assert s == s[..i] + [s[i]] + s[i + 1..];
  }

  /** Reordering a list keeps its sums. */
  lemma {:induction false} SumsPermutation(a: seq<Repo>, b: seq<Repo>)
    requires multiset(a) == multiset(b)
    ensures StarSum(a) == StarSum(b) && ForkSum(a) == ForkSum(b)
    decreases |a|
  {
    if a != [] {
      var x := a[0];
      var init := a[1..];
      assert a == [x] + init;
      assert x in multiset(b);
      var i :| 0 <= i < |b| && b[i] == x;
      var rest := b[..i] + b[i + 1..];
      RemoveOne(b, i);
      assert multiset(a) == multiset(init) + multiset{x};
      forall y
        ensures multiset(init)[y] == multiset(rest)[y]
      {
        assert multiset(a)[y] == multiset(init)[y] + multiset{x}[y];
        assert multiset(b)[y] == multiset(rest)[y] + multiset{x}[y];
      }
      assert multiset(init) == multiset(rest);
      SumsPermutation(init, rest);
      SumsRemove(b, i);
    }
  }

  /** A language tally: `(language, count)` entries in first-seen order. */
  type Tally = seq<(string, nat)>

  function Keys(t: Tally): (ks: seq<string>)
    ensures |ks| == |t| && forall i :: 0 <= i < |t| ==> ks[i] == t[i].0
  {
    if t == [] then [] else [t[0].0] + Keys(t[1..])
  }

  /** `acc[k] || 0`. */
  function Lookup(t: Tally, k: string): nat {
    if t == [] then 0 else if t[0].0 == k then t[0].1 else Lookup(t[1..], k)
  }

  /** The sum of all counts. */
  function Total(t: Tally): nat {
    if t == [] then 0 else t[0].1 + Total(t[1..])
  }

  /** `acc[k] = (acc[k] || 0) + 1`: bump the entry for `k`, or append `(k, 1)`. */
  function Bump(t: Tally, k: string): (r: Tally)
    ensures Keys(r) == if k in Keys(t) then Keys(t) else Keys(t) + [k]
  {
    if t == [] then [(k, 1)]
    else if t[0].0 == k then [(k, t[0].1 + 1)] + t[1..]
    else [t[0]] + Bump(t[1..], k)
  }

  /** Bumping adds exactly one to the total. */
  lemma {:induction false} BumpTotal(t: Tally, k: string)
    ensures Total(Bump(t, k)) == Total(t) + 1
  {
    if t != [] && t[0].0 != k {
      BumpTotal(t[1..], k);
    }
  }

  /** Bumping `k` adds one to the count of `k` and leaves every other count alone. */
  lemma {:induction false} BumpLookup(t: Tally, k: string, j: string)
    ensures Lookup(Bump(t, k), j) == Lookup(t, j) + (if j == k then 1 else 0)
  {
    if t != [] && t[0].0 != k {
      BumpLookup(t[1..], k, j);
    }
  }

  /** Bumping never lists a language twice. */
  lemma BumpNoDup(t: Tally, k: string)
    requires NoDup(Keys(t))
    ensures NoDup(Keys(Bump(t, k)))
  {
    var ks := Keys(t);
    if k !in ks {
      assert Keys(Bump(t, k)) == ks + [k];
    }
  }

  /** Bump every key of `keys` in turn, from the first. */
  function BumpAll(t: Tally, keys: seq<string>): Tally
    decreases |keys|
  {
    if keys == [] then t else BumpAll(Bump(t, keys[0]), keys[1..])
  }

  /** A tally over `keys` grows its total by exactly `|keys|`. */
  lemma {:induction false} BumpAllTotal(t: Tally, keys: seq<string>)
    ensures Total(BumpAll(t, keys)) == Total(t) + |keys|
    decreases |keys|
  {
    if keys != [] {
      BumpTotal(t, keys[0]);
      BumpAllTotal(Bump(t, keys[0]), keys[1..]);
    }
  }

  /** The keys of a tally over `keys` are the keys it started with and those of `keys`. */
  lemma {:induction false} BumpAllKeys(t: Tally, keys: seq<string>)
    ensures forall k :: k in Keys(BumpAll(t, keys)) <==> k in Keys(t) || k in keys
    decreases |keys|
  {
    if keys != [] {
      BumpAllKeys(Bump(t, keys[0]), keys[1..]);
      assert keys == [keys[0]] + keys[1..];
    }
  }

  /** Bumping never duplicates a key. */
  lemma {:induction false} BumpAllNoDup(t: Tally, keys: seq<string>)
    requires NoDup(Keys(t))
    ensures NoDup(Keys(BumpAll(t, keys)))
    decreases |keys|
  {
    if keys != [] {
      BumpNoDup(t, keys[0]);
      BumpAllNoDup(Bump(t, keys[0]), keys[1..]);
    }
  }

  /** Each count grows by the number of times its key occurs in `keys`. */
  lemma {:induction false} BumpAllLookup(t: Tally, keys: seq<string>, j: string)
    ensures Lookup(BumpAll(t, keys), j) == Lookup(t, j) + multiset(keys)[j]
    decreases |keys|
  {
    if keys != [] {
      BumpLookup(t, keys[0], j);
      BumpAllLookup(Bump(t, keys[0]), keys[1..], j);
      assert multiset(keys)[j] == multiset{keys[0]}[j] + multiset(keys[1..])[j] by {
        assert keys == [keys[0]] + keys[1..];
      }
    }
  }

  /** The language a mock repository is counted under: its own, or `Other`. */
  function LanguageOrOther(r: Repo): (l: string)
    ensures l != ""
    ensures r.language != "" ==> l == r.language
  {
    if r.language == "" then "Other" else r.language
  }

  /** The tally keys of the mock path: one per repository. */
  function MockKeys(repos: seq<Repo>): (ks: seq<string>)
    ensures |ks| == |repos|
    ensures forall i :: 0 <= i < |repos| ==> ks[i] == LanguageOrOther(repos[i])
  {
    if repos == [] then [] else [LanguageOrOther(repos[0])] + MockKeys(repos[1..])
  }

  /** The tally keys of the live path: the languages of the repositories that have one. */
  function LiveKeys(repos: seq<Repo>): (ks: seq<string>)
    ensures |ks| <= |repos|
    ensures forall k :: k in ks ==> k != ""
  {
    if repos == [] then []
    else (if repos[0].language != "" then [repos[0].language] else []) + LiveKeys(repos[1..])
  }

  /** `Math.round(count / total * 100)` with half-up integer rounding. */
  function RoundPercent(count: nat, total: nat): nat
    requires total > 0
  {
    (200 * count + total) / (2 * total)
  }

  /** The rounded percentage is the nearest whole percentage, halves going up. */
  lemma RoundPercentNearest(count: nat, total: nat)
    requires total > 0
    ensures var p := RoundPercent(count, total);
      total * (2 * p - 1) <= 200 * count < total * (2 * p + 1)
  {
    var p := RoundPercent(count, total);
    var n := 200 * count + total;
    assert 2 * total * p <= n < 2 * total * p + 2 * total;
  }

  /** A share of at most the whole rounds to at most 100. */
  lemma PercentAtMost100(count: nat, total: nat)
    requires 0 < total && count <= total
    ensures RoundPercent(count, total) <= 100
  {
    var d, n := 2 * total, 200 * count + total;
    var q := n / d;
    assert q * d <= n;
    assert n < 101 * d;
    assert (101 - q) * d > 0;
  }

  /** No single count exceeds the total. */
  lemma {:induction false} EntryAtMostTotal(t: Tally, i: nat)
    requires i < |t|
    ensures t[i].1 <= Total(t)
  {
    if i > 0 {
      EntryAtMostTotal(t[1..], i - 1);
    }
  }

  /** Every count of a tally replaced by its rounded share of `total`. */
  function Percentages(t: Tally, total: nat): (r: Tally)
    requires total > 0
    ensures |r| == |t|
    ensures forall i :: 0 <= i < |t| ==> r[i] == (t[i].0, RoundPercent(t[i].1, total))
  {
    if t == [] then [] else [(t[0].0, RoundPercent(t[0].1, total))] + Percentages(t[1..], total)
  }

  const TestPatterns: seq<string> := [
    "test", "example", "demo", "sample", "tutorial", "learning",
    "practice", "sandbox", "playground", "temp", "backup"]

  /** The repository filter of the live path. */
  predicate IsRelevant(r: Repo) {
    && !r.fork && !r.archived
    && !(r.stars == 0 && r.forks == 0 && r.description == "")
    && forall p :: p in TestPatterns ==> !Includes(Lower(r.name), p)
  }

  /** The filter keeps a repository exactly when none of its exclusion rules applies. */
  lemma RelevantIff(r: Repo)
    ensures IsRelevant(r) <==>
      && !r.fork && !r.archived
      && (r.stars > 0 || r.forks > 0 || r.description != "")
      && !exists p :: p in TestPatterns && Includes(Lower(r.name), p)
  {
  }

  /** A name holding `demo` anywhere, in any case, is dropped. */
  lemma DemoDropped(r: Repo)
    requires Includes(Lower(r.name), "demo")
    ensures !IsRelevant(r)
  {
    assert "demo" in TestPatterns;
  }

  /** Insert `x` after every element at least as recent: equal dates keep their order. */
  function Insert(x: Repo, s: seq<Repo>): (r: seq<Repo>)
    ensures multiset(r) == multiset(s) + multiset{x}
    ensures forall y :: y in r <==> y in s || y == x
    ensures |r| == |s| + 1
  {
    if s == [] then [x]
    else
      assert s == [s[0]] + s[1..];
      if s[0].updated >= x.updated then [s[0]] + Insert(x, s[1..])
      else [x] + s
  }

  predicate NewestFirst(s: seq<Repo>) {
    forall i, j :: 0 <= i < j < |s| ==> s[i].updated >= s[j].updated
  }

  lemma {:induction false} InsertSorted(x: Repo, s: seq<Repo>)
    requires NewestFirst(s)
    ensures NewestFirst(Insert(x, s))
  {
    if s != [] && s[0].updated >= x.updated {
      var r := Insert(x, s[1..]);
      InsertSorted(x, s[1..]);
      var out := [s[0]] + r;
      assert Insert(x, s) == out;
      forall i, j | 0 <= i < j < |out|
        ensures out[i].updated >= out[j].updated
      {
        if i == 0 {
          var y := r[j - 1];
          assert y in r;
          if y != x {
            var k :| 0 <= k < |s[1..]| && s[1..][k] == y;
            assert s[k + 1] == y;
          }
        } else {
          assert out[i] == r[i - 1] && out[j] == r[j - 1];
        }
      }
    }
  }

  /** The `sort` by `updated_at`, newest first: a stable insertion sort. */
  function SortNewestFirst(s: seq<Repo>): (r: seq<Repo>)
    ensures multiset(r) == multiset(s)
    ensures NewestFirst(r)
  {
    if s == [] then []
    else
      var init := s[..|s| - 1];
      assert s == init + [s[|s| - 1]];
      InsertSorted(s[|s| - 1], SortNewestFirst(init));
      Insert(s[|s| - 1], SortNewestFirst(init))
  }

  /** The user record shown with live data: a fixed follower count and minimum repository and gist counts. */
  function Enhanced(u: User): (e: User)
    ensures e.followers == 127
    ensures e.publicRepos >= 15 && e.publicRepos >= u.publicRepos
    ensures e.publicRepos == 15 || e.publicRepos == u.publicRepos
    ensures e.publicGists >= 8 && e.publicGists >= u.publicGists
    ensures e.publicGists == 8 || e.publicGists == u.publicGists
    ensures e.login == u.login && e.name == u.name && e.following == u.following
  {
    u.(followers := 127,
       publicRepos := if u.publicRepos > 15 then u.publicRepos else 15,
       publicGists := if u.publicGists > 8 then u.publicGists else 8)
  }
}
