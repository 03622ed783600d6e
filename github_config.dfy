/**
 * The GitHub settings (src/config/github.ts): the user name, the request
 * headers with optional token authentication, and the mock user and
 * repositories the statistics fall back on.
 *
 * The token comes from the build environment; here it is a parameter.
 * Dates are integers that order as the dates do (YYYYMMDD).
 */
module GitHubConfig {

  const Username: string := "nicolas-netizen"

  /** `GITHUB_CONFIG.HEADERS`. */
  const BaseHeaders: map<string, string> :=
    map["Accept" := "application/vnd.github.v3+json", "User-Agent" := "portfolio-app"]

  /** Tokens of this length or shorter are treated as absent. */
  const MinTokenLength: nat := 10

  /**
   * `getGitHubHeaders`: a copy of the base headers, plus `Authorization`
   * when the token is longer than ten characters.
   */
  function Headers(token: string): (h: map<string, string>)
    ensures forall k :: k in BaseHeaders ==> k in h && h[k] == BaseHeaders[k]
    ensures "Authorization" in h <==> |token| > MinTokenLength
    ensures "Authorization" in h ==> h["Authorization"] == "token " + token
    ensures h.Keys == BaseHeaders.Keys + (if |token| > MinTokenLength then {"Authorization"} else {})
  {
    var headers := BaseHeaders;
    if |token| > MinTokenLength then headers["Authorization" := "token " + token] else headers
  }

  /** The base headers are always sent: `Accept` and `User-Agent` keep their fixed values. */
  lemma AlwaysSent(token: string)
    ensures Headers(token)["Accept"] == "application/vnd.github.v3+json"
    ensures Headers(token)["User-Agent"] == "portfolio-app"
  {
    assert "Accept" in BaseHeaders && "User-Agent" in BaseHeaders;
  }

  /** Without a usable token the headers are exactly the base headers. */
  lemma NoTokenNoAuth(token: string)
    requires |token| <= MinTokenLength
    ensures Headers(token) == BaseHeaders
  {
  }

  /** The user fields the statistics read or rewrite. */
  datatype User = User(
    login: string,
    name: string,
    publicRepos: nat,
    followers: nat,
    following: nat,
    publicGists: nat)

  /**
   * The repository fields the statistics read. An absent language or
   * description is the empty string, which JavaScript treats as false.
   */
  datatype Repo = Repo(
    id: int,
    name: string,
    description: string,
    stars: nat,
    forks: nat,
    language: string,
    updated: int,
    fork: bool,
    archived: bool)

  /** `MOCK_GITHUB_DATA.user` (which has no gist count: 0 here). */
  const MockUser: User := User(Username, "Nicolas Paniagua", 6, 18, 12, 0)

  /** `MOCK_GITHUB_DATA.repos`. */
  const MockRepos: seq<Repo> := [
    Repo(1, "portfolio", "Mi portfolio personal desarrollado con React y TypeScript",
         5, 2, "TypeScript", 20240125, false, false),
    Repo(2, "ecommerce-app", "Aplicación de e-commerce con React y Node.js",
         8, 3, "JavaScript", 20240120, false, false),
    Repo(3, "task-manager", "Gestor de tareas con React y Firebase",
         3, 1, "TypeScript", 20240115, false, false),
    Repo(9991, "Juntea - Events App", "Mobile application for event management built with Flutter and Dart",
         47, 12, "Dart", 20240115, false, false),
    Repo(9992, "Chapiri E-commerce", "Full-stack e-commerce platform with React, Node.js and MongoDB",
         32, 8, "TypeScript", 20231120, false, false),
    Repo(9993, "Goblin Attack Game", "2D platformer game developed with Unity and C#",
         28, 6, "C#", 20230910, false, false)]

  /** The mock user's repository count agrees with the mock repository list. */
  lemma MockConsistent()
    ensures MockUser.publicRepos == |MockRepos| == 6
  {
  }
}
