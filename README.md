# Portfolio site: a Dafny model of its stateful core

This project models the behaviour of a personal portfolio web application written in TypeScript
and React. It covers the parts that hold logic rather than layout:

- **AI chat hook** (`useAIChat`): sentiment and topic classification, keyword extraction, a
  bounded conversation memory, reply decoration, the canned fallback table, and the message
  list that `sendMessage` and `clearChat` change.
- **Interactive terminal**: the command table, command lookup by trimmed lower-case text, the
  history, and the switch between command and chat mode.
- **Global search palette**: the filter effect, keyboard navigation, and result routing.
- **GitHub statistics hook** (`useGitHubData`, with its configuration):
  - the mock path, with its reduces over six repositories;
  - the live path: filtering, the five added professional projects, the newest-first sort,
    the totals with their fixed extras, language counts, and the top eight repositories;
  - the error paths.
- **Service worker**: the routing decision of the fetch listener, and the cache storage that
  the install and activate listeners change.
- **Theme hook**: eight themes, the dark flag, loading from storage, and writing back to the
  document and storage.
- **Components**:
  - the navigation bar: its own dark flag, language toggle, transient notification, menu and
    CV viewer;
  - the language notice;
  - the contact form;
  - the install banner.

Each pure source function is a Dafny function with lemmas. Each React component or hook whose
state changes step by step is a class. Its fields are the component's state plus what it
touches: `localStorage` as a string map, the root element's `dark` class, the i18n language,
and the cache storage. Its methods change those fields under `modifies` clauses. An effect that
follows a state change runs inside the method that makes the change, so a method's
postcondition is the settled state.

The source's statement loops (`forEach` walks and the reduces that build the language table)
are `while` loops with invariants, proved against a specification function:
- `ExtractKeywords` and `CollectFound` (the keyword walk);
- `MergeInterests` (the interest update);
- `CountLanguages`, `ToPercentages` and `AddLanguages` (the language reduces);
- `Worker.Activate` (cache deletion).

The other array methods (the star and fork sums, `filter`, `sort`, `slice` and `find`) are
recursive functions.

Whatever the program reads from outside becomes a parameter:
- the network;
- the assistant's reply;
- `navigator.language` and `matchMedia`;
- the clock;
- the outcome of `installApp` and of the e-mail service.

## Model

| member | source | states |
|---|---|---|
| ChatAnalysis.Found | src/hooks/useAIChat.ts:164-165 | the words of a list that occur in the text, in list order: a word is in the result iff it is listed and occurs; at most as many as listed, duplicate-free when the list is, empty when none occurs |
| ChatAnalysis.AnalyzeSentiment | src/hooks/useAIChat.ts:158-170 | positive iff more positive words than negative occur in the lower-cased message, negative iff more negative, neutral iff the counts tie |
| ChatAnalysis.SentimentIgnoresCase | src/hooks/useAIChat.ts:159 | lower-casing the message first does not change its sentiment |
| ChatAnalysis.NoListedWordIsNeutral | src/hooks/useAIChat.ts:164-169 | a message containing none of the listed words is neutral |
| ChatAnalysis.FirstFiring | src/hooks/useAIChat.ts:176-187 | the index of the first rule with an occurring word; every earlier rule has none; past the end when no rule fires |
| ChatAnalysis.CategorizeFirstMatch | src/hooks/useAIChat.ts:173-188 | the category is the topic of the first rule, in the source's order, whose words occur in the lower-cased message, or `general` when none does |
| ChatAnalysis.GreetingWins | src/hooks/useAIChat.ts:176 | any message containing `hola`, `hi` or `hello` is a greeting, whatever later topics it names |
| ChatAnalysis.HiInsideAWord | src/hooks/useAIChat.ts:176 | `hi` occurs inside `which project?`, so that question is filed as a greeting |
| ChatAnalysis.AllKeywordsDistinct | src/hooks/useAIChat.ts:195-199 | the tech, project and skill keyword lists together hold 27 distinct keywords |
| ChatAnalysis.ExtractKeywords | src/hooks/useAIChat.ts:191-206 | the result holds exactly the keywords the lower-cased message contains, in list order, without duplicates, at most 27 |
| ChatAnalysis.CollectFound | src/hooks/useAIChat.ts:199-203 | the `forEach` walk pushes exactly the found words, in order |
| ChatMemory.RememberedWindows | src/hooks/useAIChat.ts:74-91 | after an update the question window is the last (at most) 10 of the old questions plus the message and ends with it; the context window is likewise the last 5 entries and ends with `category: message` |
| ChatMemory.RememberedLists | src/hooks/useAIChat.ts:80-85 | interests and topics stay duplicate-free; interests keep what they held, gain every keyword and nothing else; topics gain exactly the category |
| ChatMemory.RememberedMood | src/hooks/useAIChat.ts:93-98 | a positive message makes the mood friendly, a negative one professional, a neutral one keeps it |
| ChatMemory.RememberedWellformed | src/hooks/useAIChat.ts:71-106 | every memory update keeps the windows bounded and the lists duplicate-free |
| ChatResponse.LearnFromPatternsSpec | src/hooks/useAIChat.ts:433-464 | the learned reply begins with the given reply, and equals it iff there is no memory, or there is no similar question and the mood is neither curious nor professional |
| ChatResponse.LeadingSpaceIsAlwaysSimilar | src/hooks/useAIChat.ts:440-443 | a message starting with a space has an empty first word, which every question contains, so with any previous question the "similar question" suffix is always added |
| ChatResponse.OwnQuestionIsSimilar | src/hooks/useAIChat.ts:433-447 | when the message itself is among the previous questions, as it is once `sendMessage` has recorded it, its first word occurs in it and the "similar question" suffix is added |
| ChatResponse.EnhanceResponse | src/hooks/useAIChat.ts:467-485 | the enhanced reply contains the generated reply; without memory, for a non-greeting and a reply of at least 20 characters, it is the reply unchanged |
| ChatResponse.CuriousSuffixUnreachable | src/hooks/useAIChat.ts:451-455 | with the moods `sendMessage` can produce, the "curious" suffix is never chosen |
| ChatResponse.SmartFallbackSpec | src/hooks/useAIChat.ts:488-565 | the fallback is the canned reply of the first rule whose words occur, and otherwise one of the four generic replies |
| ChatResponse.FallbackGreetsGreetings | src/hooks/useAIChat.ts:176 | the fallback gives the greeting reply exactly to the messages the categoriser files as greetings |
| ChatSession.MergeInterests | src/hooks/useAIChat.ts:81-85 | the keyword walk appends each keyword not yet among the interests, as the reference `AppendAbsent` |
| ChatSession.Chat.constructor | src/hooks/useAIChat.ts:29-46 | one welcome message, not loading, no error, empty memory with a friendly mood |
| ChatSession.Chat.Remember | src/hooks/useAIChat.ts:71-106 | the memory becomes `Remembered` of the old memory; the memory invariant is kept; messages, loading and error are unchanged |
| ChatSession.Chat.SendMessage | src/hooks/useAIChat.ts:48-126 | a blank message changes nothing; otherwise the analysed user message is appended, then the reply or the error text; loading ends false and the memory is updated |
| ChatSession.Chat.Accept | src/hooks/useAIChat.ts:56-125 | for an analysed message: appends it and the reply (or sets the error), ends loading and updates the memory |
| ChatSession.Chat.ClearChat | src/hooks/useAIChat.ts:128-146 | one welcome message, empty memory, no error |
| Terminal.RowsMatch | src/components/InteractiveTerminal.tsx:25-102 | the command table's rows are the listed names, descriptions and actions, in order |
| Terminal.CommandNames | src/components/InteractiveTerminal.tsx:25-102 | the twelve command names are non-empty, lower-case, at most 12 characters and distinct |
| Terminal.ActionsByName | src/components/InteractiveTerminal.tsx:59-100 | `clear` is the only command that empties the history; `chat` and `terminal` are the only ones that switch mode |
| Terminal.FindCommand | src/components/InteractiveTerminal.tsx:162 | the index of the first command with that name, or past the end when there is none |
| Terminal.HelpLinesOf | src/components/InteractiveTerminal.tsx:110 | one help line per command, in table order |
| Terminal.HelpLineLayout | src/components/InteractiveTerminal.tsx:110 | a help line is two spaces, the name padded to 12 characters, ` - ` and the description |
| Terminal.CommandsSingleLine | src/components/InteractiveTerminal.tsx:25-102 | no command name or description contains a line break |
| Terminal.NamesSingleLine | src/components/InteractiveTerminal.tsx:25-102 | no command name contains a line break |
| Terminal.DescriptionsSingleLine | src/components/InteractiveTerminal.tsx:25-102 | no command description contains a line break |
| Terminal.HelpLineSingle | src/components/InteractiveTerminal.tsx:110 | a command with a one-line name and description has a one-line help entry |
| Terminal.HelpLinesSingle | src/components/InteractiveTerminal.tsx:110 | no help line contains a line break |
| Terminal.HelpOutputLines | src/components/InteractiveTerminal.tsx:108-113 | `help` prints the header, exactly one line per command in table order, an empty line and the closing hint |
| Terminal.KeyIdempotent | src/components/InteractiveTerminal.tsx:161 | normalising an input line twice is normalising it once |
| Terminal.KeyBlank | src/components/InteractiveTerminal.tsx:161 | the lookup key is empty exactly for a blank line |
| Terminal.LookupNormalises | src/components/InteractiveTerminal.tsx:160-165 | surrounding spaces and capitals do not change which command runs |
| Terminal.BlankInput | src/components/InteractiveTerminal.tsx:166-167 | a blank line appends one entry with empty command and output |
| Terminal.UnknownInput | src/components/InteractiveTerminal.tsx:168-169 | an unknown non-blank line appends one entry quoting the line as typed |
| Terminal.PerformSpec | src/components/InteractiveTerminal.tsx:29-106 | every command but `clear` appends exactly one entry named after it; `clear` empties the history; only a switch changes the mode |
| Terminal.KnownCommand | src/components/InteractiveTerminal.tsx:160-165 | a known command appends one entry named after it (or clears); `chat` and `terminal` set the mode and no other command changes it |
| Terminal.Pwd | src/components/InteractiveTerminal.tsx:69-73 | `pwd` appends the working directory |
| Terminal.PwdRow | src/components/InteractiveTerminal.tsx:69-73 | the `pwd` row prints the working-directory text |
| Terminal.PwdText | src/components/InteractiveTerminal.tsx:17 | the working directory is `~/portfolio` |
| Terminal.Whoami | src/components/InteractiveTerminal.tsx:64-68 | `whoami` appends the user name |
| Terminal.WhoamiRow | src/components/InteractiveTerminal.tsx:64-68 | the `whoami` row prints the user-name text |
| Terminal.WhoamiText | src/components/InteractiveTerminal.tsx:67 | the user is `nicolas-netizen` |
| Terminal.KeyOfName | src/components/InteractiveTerminal.tsx:161 | a lower-case word without white space is its own lookup key |
| Terminal.Console.constructor | src/components/InteractiveTerminal.tsx:14-23 | closed, empty input, empty history, command mode, over a fresh chat |
| Terminal.Console.AddToHistory | src/components/InteractiveTerminal.tsx:104-106 | appends exactly one entry; nothing else changes |
| Terminal.Console.Run | src/components/InteractiveTerminal.tsx:29-100 | running a command leaves `Perform` of the old shell state |
| Terminal.Console.ExecuteCommand | src/components/InteractiveTerminal.tsx:160-171 | the shell state becomes `Executed` of the old one, and input and open flag are unchanged |
| Terminal.Console.SetInput | src/components/InteractiveTerminal.tsx:333 | the input becomes the typed text |
| Terminal.Console.HandleChatMessage | src/components/InteractiveTerminal.tsx:173-177 | a blank line leaves the chat unchanged; otherwise the chat gains the user message and the reply, its error is cleared or set to the failure text, loading ends, and its memory is updated with the message's sentiment, category and keywords |
| Terminal.Console.HandleKeyPress | src/components/InteractiveTerminal.tsx:179-189 | only Enter acts; it clears the input; in command mode it executes the line; in chat mode it leaves the chat's messages, error, loading flag and memory as `sendMessage` does |
| Terminal.Console.ToggleMode | src/components/InteractiveTerminal.tsx:265 | the header button swaps the mode |
| Terminal.Console.SetOpen | src/components/InteractiveTerminal.tsx:206 | the floating and close buttons set the open flag only |
| Search.ResultsSpec | src/components/GlobalSearch.tsx:151-163 | a query whose `trim()` is empty has no results; any other query has exactly the items matching it, never more than the table |
| Search.NoResultsWhenBlank | src/components/GlobalSearch.tsx:152-154 | an all-white-space query has no results |
| Search.ResultsInTableOrder | src/components/GlobalSearch.tsx:157-160 | filtering a table in two parts filters each part in turn |
| Search.MatchesIgnoresCase | src/components/GlobalSearch.tsx:158-159 | matching does not depend on the query's case |
| Search.Route | src/components/GlobalSearch.tsx:188-195 | contact `http` links open a tab, `#` anchors scroll, anything else navigates |
| Search.HashScrolls | src/components/GlobalSearch.tsx:191-192 | a `#` URL never opens a tab |
| Search.Down | src/components/GlobalSearch.tsx:203 | ArrowDown moves one down and never past the last result |
| Search.Up | src/components/GlobalSearch.tsx:206 | ArrowUp moves one up and never below 0 |
| Search.ArrowsStayInside | src/components/GlobalSearch.tsx:201-206 | with results, the arrows keep a valid index valid |
| Search.DownThenUp | src/components/GlobalSearch.tsx:201-206 | down then up from a non-last index returns to it |
| Search.Palette.constructor | src/components/GlobalSearch.tsx:17-20 | closed, empty query, no results, first index |
| Search.Palette.FilterEffect | src/components/GlobalSearch.tsx:151-164 | the results become `Results` of the query; a non-blank query selects the first |
| Search.Palette.SetQuery | src/components/GlobalSearch.tsx:151-164 | the query is set, and the effect runs only when it changed |
| Search.Palette.GlobalKeyDown | src/components/GlobalSearch.tsx:166-176 | Ctrl+K opens; Escape closes, clears the query and the results, and keeps the selection; other keys change nothing else |
| Search.Palette.Open | src/components/GlobalSearch.tsx:216 | the search button opens the palette |
| Search.Palette.Close | src/components/GlobalSearch.tsx:242-264 | the backdrop and the X button close the palette and keep its query, results and selection |
| Search.Palette.ResultClick | src/components/GlobalSearch.tsx:188-198 | returns the route of the result, closes the palette, clears the query and the results, and keeps the selection |
| Search.Palette.KeyDown | src/components/GlobalSearch.tsx:200-211 | the arrows move the selection within bounds; Enter with a selected result routes it, closes the palette, clears the query and results and keeps the selection; other keys change nothing |
| GitHubConfig.Headers | src/config/github.ts:19-37 | the base headers, plus `Authorization: token …` exactly when the token is longer than ten characters |
| GitHubConfig.AlwaysSent | src/config/github.ts:12-22 | `Accept` and `User-Agent` are always sent with their fixed values |
| GitHubConfig.NoTokenNoAuth | src/config/github.ts:28-34 | without a usable token the headers are exactly the base headers |
| GitHubConfig.MockConsistent | src/config/github.ts:40-122 | the mock user's repository count agrees with the mock repository list |
| RepoStats.SumsAppend | src/hooks/useGitHubData.ts:217-218 | the star and fork sums of a concatenation are the sums of its parts |
| RepoStats.SumsPermutation | src/hooks/useGitHubData.ts:212-218 | reordering repositories does not change the star and fork sums, so summing after the sort equals summing before it |
| RepoStats.Bump | src/hooks/useGitHubData.ts:72 | adding one to a language keeps the key list and appends the key when it is new |
| RepoStats.BumpTotal | src/hooks/useGitHubData.ts:72 | one bump raises the total count by one |
| RepoStats.BumpLookup | src/hooks/useGitHubData.ts:72 | one bump raises the bumped language's count by one and leaves every other count alone |
| RepoStats.BumpNoDup | src/hooks/useGitHubData.ts:72 | a bump keeps each language listed once |
| RepoStats.BumpAllTotal | src/hooks/useGitHubData.ts:70-74 | counting a key list raises the total by its length |
| RepoStats.BumpAllKeys | src/hooks/useGitHubData.ts:70-74 | a language is a key afterwards iff it was before or it was counted |
| RepoStats.BumpAllNoDup | src/hooks/useGitHubData.ts:70-74 | counting keeps each language listed once |
| RepoStats.BumpAllLookup | src/hooks/useGitHubData.ts:237-241 | each language's count grows by the number of times it occurs in the counted keys |
| RepoStats.LanguageOrOther | src/hooks/useGitHubData.ts:71 | a repository's language, or `Other` when it has none; never empty |
| RepoStats.MockKeys | src/hooks/useGitHubData.ts:70-74 | one key per mock repository, its language or `Other` |
| RepoStats.LiveKeys | src/hooks/useGitHubData.ts:237-241 | the languages of the repositories that have one, never empty, no more keys than repositories |
| RepoStats.RoundPercentNearest | src/hooks/useGitHubData.ts:79 | the rounded share is within half a percent of the exact share |
| RepoStats.PercentAtMost100 | src/hooks/useGitHubData.ts:79 | a count not above the total rounds to at most 100 |
| RepoStats.EntryAtMostTotal | src/hooks/useGitHubData.ts:77-81 | in a tally whose counts add up to the total, no count exceeds it |
| RepoStats.Percentages | src/hooks/useGitHubData.ts:78-81 | each language keeps its place, with its count replaced by its rounded percentage |
| RepoStats.RelevantIff | src/hooks/useGitHubData.ts:123-140 | a repository is kept iff it is neither a fork nor archived, has stars, forks or a description, and its lower-cased name contains no test pattern |
| RepoStats.DemoDropped | src/hooks/useGitHubData.ts:131-137 | a name containing `demo` in any case is dropped |
| RepoStats.Insert | src/hooks/useGitHubData.ts:212-214 | insertion adds exactly one element: same multiset plus it, one longer |
| RepoStats.InsertSorted | src/hooks/useGitHubData.ts:212-214 | inserting into a newest-first list keeps it newest first |
| RepoStats.SortNewestFirst | src/hooks/useGitHubData.ts:212-214 | the sort is a permutation and orders by update time, newest first |
| RepoStats.Enhanced | src/hooks/useGitHubData.ts:244-249 | 127 followers, at least 15 repositories and 8 gists (the fetched values when larger), everything else kept |
| GitHubData.MockStatsOf | src/hooks/useGitHubData.ts:64-99 | the mock path shows the given repositories, not loading and with no error |
| GitHubData.Dated | src/hooks/useGitHubData.ts:154 | every professional project is dated with the same `now` and otherwise unchanged |
| GitHubData.LiveStats | src/hooks/useGitHubData.ts:251-259 | the live path ends not loading and with no error |
| GitHubData.ReposError | src/hooks/useGitHubData.ts:118 | a failed repository request reports `Failed to fetch repositories: ` and the status |
| GitHubData.CountLanguages | src/hooks/useGitHubData.ts:70-74 | the reduce counts each mock repository's language (or `Other`) once |
| GitHubData.ToPercentages | src/hooks/useGitHubData.ts:78-81 | the reduce replaces each count with its rounded percentage of the total |
| GitHubData.AddLanguages | src/hooks/useGitHubData.ts:237-241 | the `forEach` adds one per repository with a language to the base counts |
| GitHubData.ComputeMock | src/hooks/useGitHubData.ts:64-99 | the mock computation yields `MockStatsOf` the user and repositories |
| GitHubData.ComputeLive | src/hooks/useGitHubData.ts:120-259 | the live computation yields `LiveStats` of the fetched data |
| GitHubData.GitHubStats.constructor | src/hooks/useGitHubData.ts:41-49 | loading, with no user, no repositories, zero totals and no error |
| GitHubData.GitHubStats.Fetch | src/hooks/useGitHubData.ts:51-268 | a failed user request gives the mock statistics; a failed repository request or a thrown error keeps the old data with the message as error; success gives the live statistics; loading always ends |
| GitHubData.MockSums | src/config/github.ts:40-122 | the six mock repositories hold 123 stars and 32 forks |
| GitHubData.MockValues | src/hooks/useGitHubData.ts:84-95 | the mock user shows 6 repositories, 41 followers (123 / 3) and 16 following (32 / 2); totals 123 and 32 |
| GitHubData.MockTally | src/hooks/useGitHubData.ts:70-77 | the mock counts add up to the number of repositories, and each language's count is the number of repositories with it |
| GitHubData.MockTallyKeys | src/hooks/useGitHubData.ts:70-74 | the mock tally lists each language once and never the empty language |
| GitHubData.MockSharesBounded | src/hooks/useGitHubData.ts:77-81 | each mock percentage is at most 100 and languages are listed once each |
| GitHubData.DatedKeeps | src/hooks/useGitHubData.ts:154 | dating repositories changes neither their sums nor their languages |
| GitHubData.ProfessionalProjectSums | src/hooks/useGitHubData.ts:143-209 | the five professional projects hold 144 stars and 34 forks |
| GitHubData.ProfessionalSums | src/hooks/useGitHubData.ts:143-209 | the same, whatever date they are given |
| GitHubData.LiveTotals | src/hooks/useGitHubData.ts:217-218 | the live totals are the kept repositories' sums plus 144 + 156 stars and 34 + 42 forks |
| GitHubData.CombinedSpec | src/hooks/useGitHubData.ts:212-214 | the combined list is a newest-first permutation of the kept repositories and the five projects |
| GitHubData.ShownLiveRepoIsRelevant | src/hooks/useGitHubData.ts:123-140 | a listed repository that is not a professional project is no fork, not archived, has stars, forks or a description, and has no test pattern in its name |
| GitHubData.LiveRepos | src/hooks/useGitHubData.ts:253 | between 5 and 8 repositories are shown (8 whenever the combined list has 8), they are its first ones, newest first, each a kept repository or a professional project |
| GitHubData.PrefixKeeps | src/hooks/useGitHubData.ts:253 | a prefix of a newest-first list is newest first and holds only its elements |
| GitHubData.BaseLanguagesTotal | src/hooks/useGitHubData.ts:221-234 | the base language counts add up to 64 |
| GitHubData.LiveLanguages | src/hooks/useGitHubData.ts:221-241 | each live language count is its base count plus the number of combined repositories (shown or not) in that language; the total is 64 plus the number of combined repositories that have a language |
| ServiceWorker.Names | public/sw.js:74 | the cache names, one per cache, in order |
| ServiceWorker.Match | public/sw.js:50 | no match iff no cache holds the URL; a match is some cache's entry for it |
| ServiceWorker.Open | public/sw.js:9 | opening adds an empty cache only when none has the name; afterwards the name exists |
| ServiceWorker.Put | public/sw.js:12 | storing changes only the named cache's entry for the URL |
| ServiceWorker.Delete | public/sw.js:78 | deleting removes exactly the caches with that name |
| ServiceWorker.StrategyFor | public/sw.js:22-47 | passthrough iff not GET or cross-origin; network only iff a same-origin GET whose URL ends in `.html` or `/`; cache first otherwise |
| ServiceWorker.FromNetwork | public/sw.js:37-44 | the network's response, or a 503 `Service Unavailable` with body `Network error` when the fetch fails |
| ServiceWorker.InterceptedIff | public/sw.js:24-32 | only same-origin GET requests are answered by the worker |
| ServiceWorker.HtmlNeverCached | public/sw.js:34-47 | HTML and directory URLs get the network's answer whatever the caches hold |
| ServiceWorker.CacheHitSkipsNetwork | public/sw.js:49-55 | a cache hit is served from the cache whatever the network would say |
| ServiceWorker.NetworkFailure | public/sw.js:57-66 | with the network down and no cache hit, the reply is the 503 stand-in |
| ServiceWorker.Worker.constructor | public/sw.js:1-4 | a worker of the given origin with no caches |
| ServiceWorker.Worker.Install | public/sw.js:7-19 | with storage available, the cache is opened and the one URL of `urlsToCache`, the favicon, stored only when its fetch is OK; any failure is swallowed |
| ServiceWorker.Worker.Activate | public/sw.js:72-86 | every cache is deleted, the current one included |
| ServiceWorker.DeleteStep | public/sw.js:76-79 | deleting the next name leaves only caches named later in the snapshot |
| ServiceWorker.InstallOnlyFavicon | public/sw.js:7-19 | installing adds no URL but the favicon's, and only to the current cache |
| ServiceWorker.SuffixOfPath | public/sw.js:35 | a suffix test on the path decides the suffix test on the whole URL |
| ServiceWorker.FaviconCacheFirst | public/sw.js:2-3 | the favicon request is handled cache first |
| ServiceWorker.StoredIsFound | public/sw.js:9-12 | after storing a URL in the opened cache, a match finds it |
| ServiceWorker.InstalledFaviconHits | public/sw.js:7-55 | after an install that stored the favicon, a same-origin GET for it is served from the cache |
| Theme.ParseKey | src/hooks/useTheme.ts:3 | every theme's key parses back to that theme |
| Theme.KeyOfParse | src/hooks/useTheme.ts:3 | only theme keys parse, each to its theme |
| Theme.ThemesComplete | src/hooks/useTheme.ts:225 | the exposed list holds each of the eight themes exactly once |
| Theme.ToStringAdopted | src/hooks/useTheme.ts:171-173 | the saved-theme test as written accepts `toString`, which is no theme |
| Theme.Adopted | src/hooks/useTheme.ts:171-173 | a saved value is adopted iff it is one of the eight keys, and then it is that theme |
| Theme.Load | src/hooks/useTheme.ts:166-181 | dark iff storage says `true` or the system prefers dark |
| Theme.LoadTheme | src/hooks/useTheme.ts:168-173 | a known saved key becomes the theme; anything else leaves `light` |
| Theme.Persist | src/hooks/useTheme.ts:205-206 | the two storage keys are set and every other key is kept |
| Theme.ReloadRestores | src/hooks/useTheme.ts:166-207 | reloading after a save restores the theme, and dark mode when it was on or the system does not prefer dark |
| Theme.FirstVisit | src/hooks/useTheme.ts:166-181 | with nothing saved the theme is `light` and dark follows the system |
| Theme.ThemeState.constructor | src/hooks/useTheme.ts:163-164 | `light`, not dark |
| Theme.ThemeState.ThemeConfig | src/hooks/useTheme.ts:217-226 | `themeConfig` is the current theme's entry of the `themes` table, whose colours are the ones on the root once the state is applied, with its three gradients |
| Theme.ThemeState.Apply | src/hooks/useTheme.ts:183-207 | the CSS properties, the `dark` class and both storage entries agree with the state |
| Theme.ThemeState.Mount | src/hooks/useTheme.ts:166-207 | the loaded state, applied; the storage is the old one with the two theme keys set and every other key kept |
| Theme.ThemeState.ChangeTheme | src/hooks/useTheme.ts:209-211 | the theme changes, dark mode does not, the new state is applied, and storage keys other than the two theme keys are kept |
| Theme.ThemeState.ToggleDarkMode | src/hooks/useTheme.ts:213-215 | dark mode flips, the theme does not, the new state is applied, and storage keys other than the two theme keys are kept |
| Navigation.ThemeText | src/components/Navigation.tsx:35-43 | the stored theme is `dark` iff dark mode is on, else `light` |
| Navigation.ThemeRoundTrip | src/components/Navigation.tsx:22-43 | the stored theme is restored on reload whatever the system prefers |
| Navigation.InitialDarkCases | src/components/Navigation.tsx:24-27 | with nothing saved the system decides; a saved `light` or `dark` overrides it |
| Navigation.NextLanguage | src/components/Navigation.tsx:55 | the toggle goes to `es` iff the language is `en`, else to `en` |
| Navigation.ToggleTwice | src/components/Navigation.tsx:54-62 | toggling twice restores `en` or `es`; any other language ends as `es` |
| Navigation.LanguageMessage | src/components/Navigation.tsx:58-60 | the English message is shown iff English was selected |
| Navigation.ThemeMessage | src/components/Navigation.tsx:66-68 | `Light mode enabled` iff the theme was dark |
| Navigation.ThemeMessageNamesNewMode | src/components/Navigation.tsx:64-70 | the theme message names the mode switched to |
| Navigation.NavBar.constructor | src/components/Navigation.tsx:14-20 | menu closed, light, no notification, viewer closed |
| Navigation.NavBar.ApplyDark | src/components/Navigation.tsx:35-43 | the `dark` class and the stored theme follow dark mode; nothing else changes |
| Navigation.NavBar.Mount | src/components/Navigation.tsx:22-43 | dark mode is turned on by a saved `dark` or by a dark system with nothing saved; a saved non-empty language is adopted; then applied; menu, notification, icon, viewer and pending clears are unchanged |
| Navigation.NavBar.ShowNotification | src/components/Navigation.tsx:45-52 | the message and icon are shown and one clear is scheduled |
| Navigation.NavBar.ClearFires | src/components/Navigation.tsx:48-51 | a firing clear hides whatever notification is shown |
| Navigation.NavBar.ToggleLanguage | src/components/Navigation.tsx:54-62 | the language toggles, is stored, and the matching message is shown |
| Navigation.NavBar.ToggleTheme | src/components/Navigation.tsx:64-70 | dark mode flips, is applied, and the message names the new mode |
| Navigation.NavBar.ToggleMenu | src/components/Navigation.tsx:122 | the burger flips the menu; nothing else changes |
| Navigation.NavBar.FollowMobileLink | src/components/Navigation.tsx:140 | a mobile link closes the menu; nothing else changes |
| Navigation.NavBar.OpenCv | src/components/Navigation.tsx:95-150 | the CV button opens the viewer; the mobile one also closes the menu; nothing else changes |
| Navigation.NavBar.CloseCv | src/components/Navigation.tsx:187-191 | the viewer's close closes it; nothing else changes |
| LanguageNotice.PrimaryTagPrefix | src/components/LanguageNotification.tsx:11 | the primary subtag is the longest prefix of the locale without `-` |
| LanguageNotice.Detect | src/components/LanguageNotification.tsx:11-13 | the detected language is `es` or `en`, and `es` iff the primary subtag is `es` |
| LanguageNotice.DetectSpanish | src/components/LanguageNotification.tsx:11-13 | `es` and `es-<region>` are detected as Spanish |
| LanguageNotice.Notice.constructor | src/components/LanguageNotification.tsx:7 | hidden |
| LanguageNotice.Notice.Effect | src/components/LanguageNotification.tsx:9-26 | shown when the detected language differs or on a first visit, never hidden; the first visit is recorded |
| LanguageNotice.Notice.ChangeLanguage | src/components/LanguageNotification.tsx:28-31 | the language is set and the notice hidden; a real change re-runs the effect, which shows it again when the new language is not the detected one and, on a first visit, records the visit in storage; otherwise storage is unchanged |
| LanguageNotice.Notice.Close | src/components/LanguageNotification.tsx:65 | the close button hides the notice |
| Contact.RequestFor | src/components/Contact.tsx:22-32 | the request carries the three fields and the fixed service, template, key and recipient |
| Contact.SameDestination | src/components/Contact.tsx:25-30 | every request goes to the same recipient through the same template, and different fields give different requests |
| Contact.Form.constructor | src/components/Contact.tsx:8-14 | not sending, no status, empty fields |
| Contact.Form.Change | src/components/Contact.tsx:44-47 | only the named field takes the new value |
| Contact.Form.BeginSubmit | src/components/Contact.tsx:16-32 | sending, no status, and the request holds the current fields |
| Contact.Form.Settle | src/components/Contact.tsx:34-41 | success empties the fields with status success; failure keeps them with status error; sending ends either way |
| InstallBanner.Banner.constructor | src/components/PWAInstallBanner.tsx:8-9 | hidden, not dismissed |
| InstallBanner.Banner.Effect | src/components/PWAInstallBanner.tsx:11-28 | a stored dismissal marks it dismissed with no timer; otherwise a timer is pending iff installable and not installed |
| InstallBanner.Banner.TimerFires | src/components/PWAInstallBanner.tsx:22-24 | the timer makes the banner visible |
| InstallBanner.Banner.Install | src/components/PWAInstallBanner.tsx:30-35 | the banner hides only when the install succeeds |
| InstallBanner.Banner.Dismiss | src/components/PWAInstallBanner.tsx:37-41 | hidden, dismissed, and the dismissal stored |
| InstallBanner.LaterVisit | src/components/PWAInstallBanner.tsx:13-17 | after a stored dismissal, a new banner is dismissed on mount, has no timer and is never rendered |

## Left out

- Layout, styling, animation, icons and translations (`t(...)`) are not modelled.
- Focus and scroll effects are not modelled. Console logging is not modelled.
- React's development-mode double effects are not modelled.
- The network, `fetch`, the clock, randomness, `navigator.language`, `matchMedia`, `installApp`
  and the e-mail service are parameters. So are the chat's asynchronous reply (`Some` text, or
  `None` for the error path) and the random index of the generic fallback reply.
- The chat's error path is kept as written: `getSmartResponse` catches every failure and falls
  back to the canned reply, so in the source the `catch` of `sendMessage` is never reached and
  the reply parameter is in practice always `Some`.
  `usePWAInstall` is not part of this model.
- `getLocalAIResponse`, `generateIntelligentPatterns` and `analyzeProjectData` pick random
  templates and call the network. They are not modelled beyond the reply parameter. Their
  post-processing, `enhanceAIResponse` and `learnFromPatterns`, is modelled.
- Lower-casing folds ASCII `A`–`Z` only.
- Trimming strips a subset of JavaScript's white space: space, tab, line feed, carriage return,
  form feed, vertical tab, U+00A0 and U+FEFF. JavaScript's `trim` also strips U+1680,
  U+2000–U+200A, U+2028, U+2029, U+202F, U+205F and U+3000. So a chat message made only of
  U+3000 is ignored by the source but accepted by the model.
- String lengths are counted in code points. JavaScript's `.length` counts UTF-16 code units,
  so a reply containing emoji or other characters outside the Basic Multilingual Plane can fall
  on the other side of the 20-character threshold of `enhanceAIResponse` (and of the 10-character
  token test of the GitHub configuration) than in the source.
- ChatSession.Chat.Remember and ChatResponse.LearnFromPatterns: the memory update is one fresh
  step. In the source, the updater copies the memory shallowly (`{ ...prev }`) and pushes into
  arrays shared with the memory object that `getSmartResponse` receives. `learnFromPatterns`
  runs after the reply delay, so it already sees the current message among the previous
  questions. The model leaves the memory argument of `LearnFromPatterns` free. The consequence
  is proved in `OwnQuestionIsSimilar`: every non-greeting reply of at least 20 characters gets
  the "similar question" suffix.
- Timestamps are integers. ISO date strings and their parsing are not modelled.
- The sort is proved to be a newest-first permutation. Its stability is not claimed.
- Repository and user records keep only the fields the logic reads. `full_name`, `html_url`,
  `created_at`, `topics`, `bio` and `avatar_url` are left out. A null or empty description or
  language is the empty string.
- RepoStats.PercentAtMost100: `Math.round` on a floating-point share is modelled as integer
  round-half-up, `(200 * count + total) / (2 * total)`.
- GitHubData.MockTally: the concrete mock percentages are not computed. Only their generic
  properties (counts, each language once, at most 100) are proved.
- The rounded mock shares need not add up to 100. Nothing about their sum is claimed.
- GitHubData.Dated: all five professional projects get the same `now`. The source calls
  `new Date()` five times, which may differ by milliseconds.
- ServiceWorker.Worker.Install: whether cache storage can be opened is a boolean parameter.
  `addAll` of the one favicon URL is a single fetch that stores only an OK response.
- The service worker's `clients.claim()` is left out. So is URL parsing: a request carries its
  origin and path separately.
- Theme.Load: a stored dark flag of `false` does not force light mode when the system prefers
  dark. This is modelled as written.
- The theme hook's `themes` table is modelled in full (`ConfigOf`). The gradients are a list of
  three strings.
- Search.Palette.constructor takes the search table as a parameter. The component always passes
  its fixed `searchData` table, which is restated as `SearchData`; the constructor does not require
  that table.
- Terminal: a history entry holds an `Output` value for a fixed command output, and
  `OutputText` spells each one out. `window.open` for `github` is left out.
- Navigation: the notification's 3-second timer is a count of pending clears. Which clear fires
  first, and when, is up to the caller.
- The PDF viewer's own contents are not modelled.
- Contact: the submit button is disabled while sending, so `BeginSubmit` requires that no send
  is in progress. The `required` attributes of the inputs are not modelled.

## Findings

| source | as written | input that shows it | evidently intended | confidence | as-written member | corrected member |
|---|---|---|---|---|---|---|
| src/hooks/useTheme.ts:171-173 | the saved theme is adopted when `themes[savedTheme]` is truthy. Properties inherited from `Object.prototype` pass this test, and the apply effect then reads `colors` of a function and fails | `localStorage['portfolio-theme'] = 'toString'` | adopt only one of the eight own theme keys | not executed | Theme.ToStringAdopted | Theme.Adopted |
