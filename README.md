# Life is a Game — verified model of the game core

"Life is a Game" turns a player's diary into role-playing progress. A
language model reads one day's text and returns four stat deltas (focus,
health, mental, growth), an XP gain and a comment. The server adds these
to the player's character, re-levels it and stores a daily log. Players
at level 5 and above can see an anonymised sample of other players, each
with a play style and a rank tier. Sign-up and sign-in accept either an
e-mail address or a bare identifier, which gets a local domain appended.

This project models that core in Dafny and proves properties of it:

| file | models |
|---|---|
| `wrappers.dfy` | `Option` and `Result` |
| `js.dfy` | parsed JSON values, property access, JavaScript truthiness, the `\s` whitespace class, `trim`, integer-to-string |
| `records.dfy` | the `Character` and `DailyLog` rows and the four-stat record |
| `level_system.dfy` | the geometric level curve: costs, level from total XP, progress, level-up detection, level messages, XP table |
| `level_mismatch.dfy` | how the stored flat level relates to the geometric curve |
| `player_style.dfy` | play style from stats, rank tier from the count of higher-ranked players |
| `character_service.dfy` | the flat level, new character and log records, and a `CharacterStore` class for create, read, update and log-insert |
| `players_route.dfy` | the players endpoint: its gates, the roster, ranks, and a shuffled sample of ten anonymised others |
| `analyze_route.dfy` | the analyze endpoint: request checks, reply validation, then update followed by log write |
| `analyze_trial_route.dfy` | the trial endpoint: text check, a looser reply check, nothing stored |
| `auth_service.dfy` | the e-mail shape test, identifier normalisation, sign-up and sign-in checks, error mapping, the character created on first sign-in |

Everything outside the program is a parameter:

- the signed-in user;
- the identity provider's answer;
- the model's reply (empty, unparseable, or a parsed JSON value);
- whether each database read and write succeeds;
- the ids the database assigns;
- the current date;
- the random draws of the shuffle.

The database is the `CharacterStore` class. Its `characters` map holds the
rows keyed by id. Its `logs` sequence holds the daily logs in insertion
order. Every method that writes keeps two invariants:

- `Valid()`: each row is stored under its own id.
- `LevelsFlat()`: each stored level is `xp / 500 + 1`.

Two level formulas exist in the source, and the model keeps both:

- The store re-levels with the flat formula `floor(xp / 500) + 1` (`lib/character-service.ts:4-6, 96`).
- `lib/level-system.ts` defines a geometric curve in which level L costs `floor(500·1.5^(L−1))`.

The character page takes the stored flat level and feeds it into the
curve's progress function. For XP ≥ 0:

- the two levels agree below 1000 XP (`LevelMismatch.LevelsAgreeBelow1000`);
- the flat level is never below the curve's level (`LevelMismatch.FlatLevelAtLeastCurve`);
- at 1000 XP the stored level is 3, the curve's level is 2, and the progress shown is 1000 − 1250 = −250 (`LevelMismatch.ProgressNegativeAt1000`).

Negative XP is reachable, because the analyze route does not bound the
model's numbers (`AnalyzeRoute.RangesNotChecked`). A character at 0 XP that
gains −5 is stored with flat level 0, while the curve gives level 1. The
page then asks the curve for the cost of level 0
(`LevelMismatch.NegativeXPStoresLevelZero`). All of this is modelled as
written.

`RequiredXP` computes `floor(500·1.5^(L−1))` exactly over the integers:

- for L ≥ 1 it is `500·3^(L−1) div 2^(L−1)`;
- for L < 1 the exponent is negative, and the value is `500·2^(1−L) div 3^(1−L)`; level 0, for example, costs 333.

Its contract states the floor property in both cases.

## Model

| member | source | states |
|---|---|---|
| LevelSystem.RequiredXP | lib/level-system.ts:3-7 | the cost r of level L is the floor of 500·1.5^(L−1): r·2^(L−1) ≤ 500·3^(L−1) < (r+1)·2^(L−1) for L ≥ 1, and the mirror inequality with 2 and 3 swapped for L < 1 |
| LevelSystem.RequiredAtLeastBase | lib/level-system.ts:5-7 | every level from 1 up costs at least 500 XP, which is what makes the level search terminate |
| LevelSystem.RequiredXPValues | lib/level-system.ts:5-7 | levels 1, 2 and 3 cost 500, 750 and 1125 |
| LevelSystem.RequiredXPIncreasing | lib/level-system.ts:5-7 | each level from 1 up costs strictly more than the one before |
| LevelSystem.PowTwoAtMostPowThree | lib/level-system.ts:6 | 2^k ≤ 3^k, so 1.5^k ≥ 1 |
| LevelSystem.Accumulated | lib/level-system.ts:12-32 | the prefix sum of costs that the loops build: 0 up to level 1, and at least 500(L−1) at level L, since every cost is at least 500 |
| LevelSystem.AccumulatedGrows | lib/level-system.ts:14-22 | the cumulative threshold of a higher level is strictly larger |
| LevelSystem.LevelFrom | lib/level-system.ts:14-22 | the greedy search from any start level it can reach ends at a level whose threshold fits x and whose next threshold does not |
| LevelSystem.Level | lib/level-system.ts:10-24 | the level of x satisfies the level characterization (threshold ≤ x < next threshold, level ≥ 1) |
| LevelSystem.LevelUnique | lib/level-system.ts:10-24 | at most one level satisfies the characterization, so the search result is determined by x |
| LevelSystem.LevelIsLargest | lib/level-system.ts:14-22 | for x ≥ 0 a level L ≥ 1 fits (Σ_{i<L} cost(i) ≤ x) exactly when L ≤ Level(x): the search returns the largest fitting level |
| LevelSystem.LevelMonotone | lib/level-system.ts:10-24 | more XP never gives a lower level |
| LevelSystem.LevelAtThreshold | lib/level-system.ts:10-24 | exactly the cumulative threshold of level L gives level L |
| LevelSystem.LevelValues | lib/level-system.ts:10-24 | 0→1, 499→1, 500→2, 1249→2, 1250→3 |
| LevelSystem.ProgressWithinLevel | lib/level-system.ts:10-34 | the progress within the reached level lies in [0, cost of that level) |
| LevelSystem.CalculateLevel | lib/level-system.ts:10-24 | the while-loop returns Level(totalXP), which is ≥ 1 with its threshold fitting and the next one not |
| LevelSystem.XPForCurrentLevel | lib/level-system.ts:27-35 | the for-loop's sum of earlier costs plus the result reproduces totalXP; at the correct level the result lies in [0, cost) |
| LevelSystem.XPToNextLevel | lib/level-system.ts:38-42 | the result plus the progress is the level's cost; total plus result reaches the next threshold; at the correct level it lies in (0, cost] |
| LevelSystem.CheckLevelUp | lib/level-system.ts:45-58 | old and new levels are the levels of the two totals; leveled ⇔ newLevel > oldLevel; no level-up without an XP change; gaining XP never lowers the level |
| LevelSystem.DefaultMessageExamples | lib/level-system.ts:117 | levels 11, 123, −3 and 0 get the default titles 🎉 Lv.11 달성, 🎉 Lv.123 달성, 🎉 Lv.-3 달성 and 🎉 Lv.0 달성 |
| LevelSystem.GetLevelMessage | lib/level-system.ts:61-121 | levels 1..10 get their table entry; any other level gets the default title 🎉 Lv.n 달성 with the default message; isSpecial holds exactly at 2, 5 and 10 |
| LevelSystem.XPTable | lib/level-system.ts:124-139 | n rows for n ≥ 0 (default 10); row k has level k+1, that level's cost, and the sum of the earlier costs, starting at 0 |
| CharacterService.FlatLevel | lib/character-service.ts:4-6 | the flat level L satisfies 500(L−1) ≤ xp < 500L |
| CharacterService.FlatLevelValues | lib/character-service.ts:4-6 | 0→1, 499→1, 500→2, 1000→3 |
| CharacterService.NewCharacter | lib/character-service.ts:26-34 | a new character has the given name, no owner, level 1, xp 0 and zero stats |
| CharacterService.NewCharacterLevelIsFlat | lib/character-service.ts:26-34 | the new character's level agrees with the flat formula |
| CharacterService.ApplyUpdate | lib/character-service.ts:91-108 | the updated row keeps id, owner, name and nickname; it has the elementwise stat sums and the XP sum, and its level is the flat level of the new XP |
| CharacterService.UpdatesCompose | lib/character-service.ts:91-108 | two updates in a row equal one update with summed deltas and XP |
| CharacterService.NewLog | lib/character-service.ts:136-148 | the log copies the character id, the date, the text, each delta, the XP and the comment |
| CharacterService.CharacterStore.constructor | lib/character-service.ts:24-163 | an empty store satisfies both store invariants |
| CharacterService.CharacterStore.Insert | lib/character-service.ts:36-42 | an insert succeeds exactly when the write succeeds and the id is new; it then adds exactly that row, and otherwise leaves the store unchanged |
| CharacterService.CharacterStore.CreateCharacter | lib/character-service.ts:24-53 | when the write succeeds it adds exactly NewCharacter under the new id and returns it; otherwise it returns none and changes nothing |
| CharacterService.CharacterStore.GetCharacter | lib/character-service.ts:57-72 | returns the row stored under id when the query succeeds and there is one, else none |
| CharacterService.CharacterStore.UpdateCharacterStats | lib/character-service.ts:75-120 | a missing id, a failed read or a failed write gives none and no change; otherwise only the row keyed by id changes, to ApplyUpdate of its old value, and the flat-level invariant is kept |
| CharacterService.CharacterStore.SaveDailyLog | lib/character-service.ts:123-163 | a successful write appends exactly NewLog(...) for the given date; a failed one gives none and no change; the characters are untouched |
| PlayerStyle.GetPlayStyle | lib/player-style.ts:14-47 | 플레이 시작 단계 ⇔ Σ|stat| < 10; 균형 잡힌 ⇔ max−min < 20 and Σ|stat| > 20; each centred style has the largest absolute stat, with ties going to growth, then mental, then focus, then health; the final default is unreachable |
| PlayerStyle.Classify | lib/player-style.ts:21-46 | the decision steps on activity, spread and magnitudes: never the fallback; starting out ⇔ activity < 10; balanced ⇔ spread < 20 and activity > 20; growth wins only at the maximum |
| PlayerStyle.ModerateActivityNeverBalanced | lib/player-style.ts:21-32 | activity between 10 and 20 is never balanced nor starting out |
| PlayerStyle.PlayStyleSignFree | lib/player-style.ts:18-43 | negating every stat does not change the style |
| PlayerStyle.StyleFromMagnitudesAndSpread | lib/player-style.ts:18-43 | two stat vectors with the same four magnitudes and the same spread get the same style |
| PlayerStyle.NegatedSpread | lib/player-style.ts:29 | max − min of the signed stats does not change when every sign flips |
| PlayerStyle.PlayStyleExamples | lib/player-style.ts:14-47 | zero stats, near-equal stats, a growth peak, a negative mental/positive growth tie, and a negative focus give the expected styles |
| PlayerStyle.GetRankTier | lib/player-style.ts:55-69 | with at least 2 players: top 10% ⇔ 10h ≤ t; top 30% ⇔ t < 10h ≤ 3t; 플레이 중 otherwise or below 2 players |
| PlayerStyle.RankTierIgnoresXP | lib/player-style.ts:55-69 | the tier does not depend on the player's own XP |
| PlayerStyle.RankTierMonotone | lib/player-style.ts:55-69 | fewer higher-ranked players never gives a worse tier |
| PlayerStyle.RankTierExamples | lib/player-style.ts:55-69 | a lone player is 플레이 중; 5/100, 25/100 and 50/100 give top 10%, top 30% and 플레이 중; nobody above gives top 10% |
| PlayersRoute.Filter | app/api/players/route.ts:66-72 | filtering keeps each element's multiplicity when it passes and drops it otherwise |
| PlayersRoute.EligibleMembers | app/api/players/route.ts:51-55 | a row is in the roster exactly when it is a row of level ≥ 5 |
| PlayersRoute.OthersMembers | app/api/players/route.ts:71-72 | a row kept after excluding the requester is a table row not owned by the requester |
| PlayersRoute.OtherEntry | app/api/players/route.ts:75-93 | another player's entry is anonymous (익명 플레이어, isMe false) and carries that player's level, style and tier ranked against the full roster |
| PlayersRoute.Requester | app/api/players/route.ts:29-40 | the own-character lookup succeeds exactly when the user owns exactly one row, and then yields that row, which is a table row owned by the user |
| PlayersRoute.Shuffle | app/api/players/route.ts:73 | the random reordering is a permutation |
| PlayersRoute.Prefix | app/api/players/route.ts:74 | the first min(10, n) shuffled players form a sub-multiset of the candidates |
| PlayersRoute.SampleOthers | app/api/players/route.ts:71-94 | the sample is a sub-multiset of the non-requester roster rows, of size min(10, their count); each entry is the anonymised entry for its player: 익명 플레이어, its level, its style, its tier ranked against the full roster, isMe false |
| PlayersRoute.GetPlayers | app/api/players/route.ts:17-117 | 401 without a user, 404 when the own lookup fails or finds not exactly one row, 403 below level 5, 500 on a failed roster query, in this order; a request passing all four gates gets a roster, whose totalPlayers counts all level ≥ 5 rows including the requester, whose myInfo has the own nickname, level, style and tier ranked by strictly greater XP with isMe true, and whose others are the anonymised sample |
| AnalyzeRoute.CheckRequest | app/api/analyze/route.ts:9-23 | accepted exactly when text and characterId are non-empty strings; a missing or non-string text gives 400 before characterId is looked at; a null or unreadable body ends in the 500 handler |
| AnalyzeRoute.ParseAnalysis | app/api/analyze/route.ts:84-97 | a reply is accepted exactly when stats has four number fields, xp is a number and comment is a string; the values are copied |
| AnalyzeRoute.RangesNotChecked | app/api/analyze/route.ts:87-97 | huge and negative stat and XP values pass the check |
| AnalyzeRoute.ReadReply | app/api/analyze/route.ts:78-97 | only a well-shaped parsed reply is read; an empty reply gives a 500 with the empty-reply detail, a malformed object one with the bad-shape detail, an unparseable or null reply a 500 without a modelled detail |
| AnalyzeRoute.Analyze | app/api/analyze/route.ts:7-135 | request errors and a missing key change nothing; a bad reply changes nothing; a good reply updates the character first; a missing row or a failed read or update gives 500 and writes no log; otherwise the log is appended only if its write succeeds, and the response is the reply's fields plus the updated character |
| AnalyzeTrialRoute.AnalyzeTrial | app/api/analyze-trial/route.ts:38-83 | missing, non-string or whitespace-only text gives 400; a reply is returned unchanged exactly when stats is truthy, xp is non-zero and comment is non-empty; every other failure is the one 500 |
| AnalyzeTrialRoute.TrialDecidedByReply | app/api/analyze-trial/route.ts:70-75 | once the text passes, an object reply is returned as is exactly when it passes the truthiness check, and otherwise gives the one 500 |
| AnalyzeTrialRoute.ZeroXPRefused | app/api/analyze-trial/route.ts:71-73 | xp = 0 is refused |
| AnalyzeTrialRoute.EmptyStatsAccepted | app/api/analyze-trial/route.ts:71-75 | stats = {} is accepted and returned as is |
| AnalyzeTrialRoute.EmptyCommentRefused | app/api/analyze-trial/route.ts:71-73 | an empty comment is refused |
| Js.TrimStart | app/api/analyze-trial/route.ts:42 | drops exactly a whitespace prefix: the result is a suffix, the part dropped is all whitespace, the result is empty iff the input is all whitespace, and otherwise it starts with a non-whitespace character |
| Js.TrimEnd | app/api/analyze-trial/route.ts:42 | drops exactly a whitespace suffix: the result is a prefix, the part dropped is all whitespace, the result is empty iff the input is all whitespace, and otherwise it ends with a non-whitespace character |
| Js.Trim | app/api/analyze-trial/route.ts:42 | trimmed text is empty exactly when the input is all whitespace |
| Js.Truthy | app/api/analyze-trial/route.ts:71 | JavaScript truthiness: undefined and null are falsy, objects and arrays truthy, a number exactly when non-zero, a string exactly when non-empty |
| AuthService.IsEmailFormat | lib/auth-service.ts:15-17 | the shape test; an accepted string has at least five characters (its full language is the next row) |
| AuthService.EmailFormatMatchesPattern | lib/auth-service.ts:15-17 | the shape test accepts exactly the strings of the form plain+ @ plain+ . plain+, plain meaning neither whitespace nor '@' |
| AuthService.EmailFormatInWords | lib/auth-service.ts:15-17 | the shape test holds iff there is no whitespace and exactly one '@', with a non-empty local part and a '.' in the domain that is neither its first nor its last character |
| AuthService.Normalise | lib/auth-service.ts:40-42 | e-mail shaped input is unchanged; any other identifier gets @life-as-a-game.local appended; either way the identifier is kept as a prefix |
| AuthService.NormalisedPlainIsEmail | lib/auth-service.ts:15-42 | a non-empty identifier without whitespace and '@' normalises to an e-mail shaped string |
| AuthService.LocalDomainShaped | lib/auth-service.ts:42 | the appended domain life-as-a-game.local is plain and has an inner dot |
| AuthService.WhitespaceNeverEmail | lib/auth-service.ts:15-42 | an identifier containing whitespace never normalises to an e-mail shaped string |
| AuthService.PrepareSignUp | lib/auth-service.ts:27-42 | checks in order: any empty field, identifier shorter than 4, password shorter than 6; only input passing all three goes to the provider, with the normalised identifier and the nickname |
| AuthService.SignUpResult | lib/auth-service.ts:55-79 | success exactly when the provider created a user, carrying its id |
| AuthService.Contains | lib/auth-service.ts:57-106 | String includes: a found needle is no longer than the haystack, and the empty needle is always found |
| AuthService.ContainsInfix | lib/auth-service.ts:57-106 | every occurrence of the needle inside a string is found |
| AuthService.SignUp | lib/auth-service.ts:20-80 | input-check failures are reported as they are; success holds exactly when the checks pass and the provider created a user, and then carries that user's id |
| AuthService.SignUpChecksComeFirst | lib/auth-service.ts:27-45 | a sign-up refused by the checks does not depend on the provider's answer |
| AuthService.PrepareSignIn | lib/auth-service.ts:89-96 | an empty identifier or password is refused; otherwise the normalised identifier is sent |
| AuthService.SameIdentifierRule | lib/auth-service.ts:40-96 | sign-up and sign-in send the same identifier for the same input |
| AuthService.SignInErrorMessage | lib/auth-service.ts:104-110 | an unconfirmed e-mail gets its own message; every other provider error reads as wrong credentials |
| AuthService.AutoNickname | lib/auth-service.ts:128 | the metadata nickname when it is non-empty, else 플레이어 |
| AuthService.AutoCharacter | lib/auth-service.ts:130-141 | the auto-created character is owned by the user, has level 1, xp 0, zero stats and the chosen nickname |
| AuthService.SignIn | lib/auth-service.ts:83-166 | empty input, a provider error and a missing user fail without touching the store; a user with exactly one character whose lookup succeeds signs in unchanged; otherwise (a failed query or not exactly one row) one auto character is inserted, and a failed insert reports the character-creation error |
| AuthService.SecondCharacterAfterFailedLookup | lib/auth-service.ts:117-150 | when the lookup fails for a user who already has one character, the inserted character makes two rows owned by that user in the store |
| LevelMismatch.NegativeXPStoresLevelZero | app/character/page.tsx:65-66 | at −5 XP the stored flat level is 0, the curve's level is 1, the cost asked for level 0 is 333, and the progress shown is −5 |
| LevelMismatch.FlatLevelAtLeastCurve | lib/character-service.ts:4-6 | for XP ≥ 0 the stored flat level is never below the curve's level |
| LevelMismatch.StoredProgress | app/character/page.tsx:65 | for XP ≥ 0, the progress the character page computes from the stored level is negative exactly when the flat level is ahead of the curve; negative XP is shown as is, since the stored level is then at most 0 |
| LevelMismatch.ProgressNegativeAt1000 | app/character/page.tsx:65-66 | at 1000 XP the stored level is 3, the curve's level is 2 and the progress shown is −250 |
| LevelMismatch.LevelsAgreeBelow1000 | lib/character-service.ts:4-6 | for 0 ≤ XP < 1000 the flat and curved levels coincide |

## Left out

- React pages and the tutorial modal are not modelled: they are rendering and routing, and their progress bars use floating-point display math. The character page's progress call is the one exception, captured by `LevelMismatch.StoredProgress`.
- Browser storage is not modelled: `saveCharacterId`, `getCharacterId`, `isLoggedInSync`, the character id saved at sign-in, and the entries `signOut` removes.
- `signOut`, `getCurrentUser`, `isLoggedIn` and `onAuthStateChange` are thin wrappers around network calls to the identity provider and are not modelled. The signed-in user and the provider's answers enter as parameters.
- Client construction, environment variables and the debug telemetry in `lib/supabase.ts` and `lib/supabase-server.ts` are not modelled; only their row shapes are.
- The language-model calls and the prompt text are foreign calls. Their outcome enters as the `reply` parameter. The "50 + Σ|stat|×10" XP rule is an instruction to the model, not code.
- Concurrency is not modelled: two updates racing on one row's read-modify-write. Operations run one at a time.
- PlayersRoute.Shuffle: any permutation reachable from the random draws is allowed. The model does not claim that `sort(() => Math.random() - 0.5)` is uniform, or how biased it is.
- The roster query's descending-XP order is not modelled: the roster is taken in the rows' order, and nothing depends on that order after the shuffle.
- `created_at` and the log and character ids the database generates are not modelled; ids enter as parameters.
- Numbers are integers. Fractional, NaN or infinite JSON numbers, and IEEE-double rounding, are not modelled.
- LevelSystem.RequiredXP: it is exact where `Math.pow(1.5, L−1)` is exact. That holds up to about level 34; above it the double loses precision and the source's value can differ.
- LevelSystem.XPForCurrentLevel: for level < 1 the loop runs zero times, as in the source. The "in range" part of the contract is stated only at the correct level, because the pages may pass any stored level.
- PlayerStyle.GetRankTier: the division in `(h / t) * 100` is read as exact. The cross-multiplied comparisons agree with the double comparison except where `0.1·t` or `0.3·t` rounding meets an exact integer boundary.
- String lengths count Unicode characters, not UTF-16 code units. The length checks of sign-up differ from the source for characters outside the Basic Multilingual Plane.
- The `details` text of unexpected runtime errors is not modelled: thrown network errors and provider exceptions, i.e. the `catch` branches' `error.message`. Only the messages the code itself raises are modelled.
- No server code computes the `levelUp` field that the result page reads. The analyze route passes on every field of the model's reply, so a `levelUp` reaches the page only if the reply itself carries one; the model passes it through the same way. `LevelSystem.CheckLevelUp` is modelled but not called by the routes.
- A sign-up that returns a user creates no character: the source and the model defer this to the first sign-in.
