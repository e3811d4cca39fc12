# The Shape of Us — profile parsing and metric engine

A model of the two components of the IMC client/server application that
hold its logic:

- **The client's profile parsing** (`App` in app.py). A typed line is split
  on single spaces; `list_user_data` drops empty tokens, keeps the gender
  markers `m`/`f` (either case) verbatim and converts every other token with
  `float()`; `generate_dict` zips the list onto the keys `height`, `weight`,
  `gender`, `activityLevel`, `age`; `validate_data` re-collects the line until
  it parses.
- **The server's metric engine** (server.py): body-mass index (IMC) as
  weight over height squared, its six-way status, the Mifflin–St Jeor basal
  metabolic rate with the height turned into centimetres, the calorie intake
  as BMR times the raw activity level, the macronutrient grams, and the
  five-field response that `handle_client` builds from them — including the
  Python exception that ends a worker without a response when the request
  is incomplete or ill-typed.

Files: `common.dfy` (module `Common`: `Option`, `Result`, the field value
`Value = Num(real) | Str(string)`, ASCII `Lower`), `app.dfy` (module `App`),
`server.dfy` (module `Server`), `exchange.dfy` (module `Exchange`: what the
server does with the dictionary the client builds).

Modelling choices:

- Python's `float()` is a parameter `parse: string -> Option<real>`; every
  result is stated for all such functions. `None` is the `ValueError`.
- `input()`, reached through `collect_user_data`, is a script: the sequence
  of token lists typed at each re-collection. `ValidateData` returns `None`
  when the script runs out before a line parses. While standard input stays
  open the program would then still be waiting for input; at end of input
  `input()` raises `EOFError`, which `validate_data` does not catch
  (app.py:109, 115), so the client ends with that exception.
- Numbers are Dafny `real`: exact arithmetic, so IEEE-754 rounding is
  abstracted away. Identities such as BMR 1667.5 hold exactly here and only
  up to float rounding in the program.
- The JSON encoding between client and server carries numbers and strings
  unchanged, so the server's request is modelled as the client's dictionary.
- `list_user_data` is imperative in the program (a loop appending to a list)
  and is a `method` with a `for` loop proved equal to the function `Clean`;
  `validate_data` is a `while` loop method. The server side is pure and is
  functions.

Where the program's own documentation and prompts and its code disagree,
the model follows the code:

- The doc-comment of `validate_data` (app.py:99) says it ensures all fields
  are filled, and its `IndexError` handler prints "Please fill in all the
  data" (app.py:111); the code accepts a line with fewer than five fields
  (see Findings).
- The prompt asks for "Gender (M/F)" (app.py:68); `generate_bmr` uses the +5
  constant only for `"m"`/`"M"` and −161 for every other string.
- The header describes the activity level as 1 to 4 (app.py:29); the client
  sends it and the age as floats, nothing checks their range, and the server
  multiplies by the raw level.

## Model

| member | source | states |
|---|---|---|
| `Common.Lower` | app.py:90 | `str.lower()` on ASCII: same length, each letter A–Z lowered, everything else unchanged |
| `App.MarkerTokens` | app.py:90 | a token is kept as a marker iff it is one of "m", "M", "f", "F"; any token not of length one is never a marker |
| `App.Convert` | app.py:89-93 | a non-empty token fails exactly when it is not a marker and `float()` rejects it, and the error names that token |
| `App.NonEmpty` | app.py:89 | the filtered token list is no longer than the input, holds no empty token, and holds every non-empty token of the input |
| `App.CleanPrefixFailure` | app.py:93 | a `ValueError` at some token aborts the whole call: the result is that failure whatever follows |
| `App.CleanSucceedsIff` | app.py:87-94 | `list_user_data` succeeds iff every non-empty, non-marker token parses as a number |
| `App.CleanFollowsTokens` | app.py:87-94 | on success the output has one entry per non-empty token, in order; entry i is the i-th non-empty token verbatim if it is a marker and its parsed number otherwise |
| `App.CleanReportsFirstBadToken` | app.py:88-93 | on failure the reported token is the first non-empty, non-marker token that does not parse, and every earlier such token parsed; no partial list is returned |
| `App.ListUserData` | app.py:79-94 | the loop's result equals `Clean`, the token-by-token specification |
| `App.Zip` | app.py:138 | `zip` has the length of the shorter input and pairs equal positions |
| `App.DictOfDistinctKeys` | app.py:138 | `dict` of pairs with distinct keys maps every key to its own value and holds no other key |
| `App.GenerateDict` | app.py:128-138 | never fails; holds the i-th key iff the list has an i-th element, which it maps to; holds no key outside the five |
| `App.GenerateDictDropsExtra` | app.py:137-138 | elements past the fifth do not affect the dictionary |
| `App.ValidateData` | app.py:97-125 | returns the parse of the first collected line that parses, after one re-collection per earlier failing line, with no retry bound; a line that parses on the first attempt is accepted with no re-collection whatever its length |
| `App.ValidateComplete` | app.py:97-125 | corrected loop: also rejects lines with fewer than five fields, so an accepted list fills all five keys |
| `Server.GenerateImc` | server.py:30-41 | fails with `ZeroDivisionError` iff the height is zero; otherwise imc × height² equals the weight |
| `Server.ImcStatusOf` | server.py:52-64 | each of the six statuses holds exactly on its interval: below 18.5, [18.5, 25), [25, 30), [30, 35), [35, 40), from 40 on |
| `Server.GetImcStatus` | server.py:44-64 | fails exactly when the imc does; otherwise the status of that same imc |
| `Server.LabelInjective` | server.py:53-64 | the six returned labels are pairwise distinct |
| `Server.ImcStatusMonotone` | server.py:53-64 | a larger imc never yields an earlier category |
| `Server.ImcStatusBoundaries` | server.py:53-63 | 18.5, 25, 30, 35 and 40 each fall into the higher category |
| `Server.IsMaleTokens` | server.py:81 | the male branch is taken iff the gender is "m" or "M" |
| `Server.BmrFormula` | server.py:75-86 | BMR = 10·weight + 6.25·(height·100) − 5·age, plus 5 for "m"/"M" and −161 for every other gender string |
| `Server.BmrGenderGap` | server.py:81-84 | for otherwise identical profiles, the male BMR minus the BMR for any non-male gender string is 166 |
| `Server.BmrIgnoresActivityLevel` | server.py:78-86 | the activity level is read but does not change the BMR |
| `Server.BmrMonotone` | server.py:82-84 | BMR does not decrease with weight or height and does not increase with age |
| `Server.CalorieIntakeLinear` | server.py:97-102 | the intake is linear in the raw activity level, with the BMR as slope (level 1 gives the BMR): no factor table |
| `Server.CalculateNutrients` | server.py:113-124 | proteins equal the weight, carbohydrates are three times the proteins, fats 0.7 times |
| `Server.HandleClient` | server.py:16-22 | a response exists iff all five keys are present with numbers (gender a string) and a non-zero height; a missing height is `KeyError('height')`, a zero height `ZeroDivisionError`; the response's status is the status of its own imc, imc × height² is the weight, the intake is BMR times level, the nutrients are `CalculateNutrients` of the same profile (carbohydrates three times proteins) |
| `Server.ImcBoundarySample` | server.py:38-56 | 1.70 m and 53.465 kg give imc exactly 18.5 and "Normal weight"; 53.4649 kg gives "Underweight" |
| `Server.MetricsSample` | server.py:75-124 | 1.70 m, 70 kg, "M", level 3, age 20 give BMR 1667.5, intake 5002.5 and 210/70/49 g |
| `Exchange.ShortListGetsNoResponse` | app.py:137-138 | a list of fewer than five fields leaves a key out, and the server raises before answering |
| `Exchange.ProfileListGetsResponse` | server.py:16-22 | a list of shape number, number, string, number, number with non-zero height is answered with the engine's metrics of that profile |
| `Exchange.ShortInputAccepted` | app.py:105-114 | the line "1.70" parses on the first attempt, its dictionary lacks "weight", and the server fails with `KeyError('weight')` |
| `Exchange.SampleLineParses` | app.py:87-94 | "1.70", "", "70.0", "M", "3", "20" parse to 1.7, 70, "M", 3, 20: the blank token is dropped and "M" is kept |
| `Exchange.SampleRequestAnswered` | server.py:16-22 | that profile is answered with imc 70/2.89, "Normal weight", BMR 1667.5, intake 5002.5, nutrients 210/70/49 |

## Left out

- client.py: socket connect, `send`, `recv(1024)` and the JSON codec; the exchange is modelled as the dictionary passing unchanged.
- `handle_client`'s `recv(4096)`, `json.loads`, `json.dumps`, `send`, `close` and `getpeername`: network I/O and a library codec. A request larger than one read and JSON values other than numbers and strings (`null`, booleans, nested objects) are not modelled.
- `start_server`: the accept loop and the thread per connection. Workers share no state, so each request is modelled as one call of `HandleClient`.
- All presentation in app.py (`padding`, `generate_header`, `row`, `row_table`, `title`, `print_result`, `create_table_imc`, `create_table_qtd_cal`, `menu`, `__init__` and the module-level `App()` calls): printing only.
- `collect_user_data`: it prints the prompt and reads a line; it is replaced by the scripted input.
- Python's `float()` grammar (whitespace, `inf`, `nan`, underscores): abstracted as `parse`. Infinities and NaN have no counterpart among the reals.
- IEEE-754 rounding: every metric is computed in exact real arithmetic.
- `Common.Lower`: models `str.lower()` on ASCII only; no other character lowers to "m" or "f", so the marker test and the male test are unaffected.
- `Server.HandleClient`: values of other JSON types are outside the `Value` domain, so faults they alone would raise are not modelled.

## Findings

| source | as written | input that shows it | evidently intended | confidence | as-written member | corrected member |
|---|---|---|---|---|---|---|
| app.py:97-125 | the documentation promises that all fields are filled, and the `IndexError` handler prints "Please fill in all the data"; `generate_dict` uses `zip`, which truncates, so no `IndexError` is ever raised and a short line is accepted | the line `1.70`: parsed on the first attempt, the dictionary lacks `weight`, and the server raises `KeyError('weight')`, closing the connection without a response | a line with fewer than five fields is rejected and re-collected like an invalid one | high (derived from the code; not executed) | `Exchange.ShortInputAccepted` | `App.ValidateComplete` |
