# Password strength meter: a Dafny model of its password-policy core

The application is a single-page Streamlit tool. It scores a password against
five criteria and labels the score. It generates random passwords from
selectable character classes. It keeps a per-session history of saved
passwords and warns when a password has been saved at least twice. This
project models that core in Dafny and proves its properties:

- `CharClasses.dfy` holds the alphabets of Python's `string` module that the
  app uses, the special set `!@#$%^&*`, and the per-character tests.
  `str.isupper`, `str.islower` and `str.isdigit` are modelled as the ASCII
  ranges `A`-`Z`, `a`-`z` and `0`-`9`.
- `Strength.dfy` holds `check_strength` and `get_strength_label`. Both are pure
  functions. The labels keep the source's emoji prefixes.
- `Generator.dfy` holds `generate_password` as a method. It builds the pool,
  seeds one character per enabled class, fills up to `length` in a `while`
  loop, shuffles and truncates. `random.choice` picks an arbitrary element of
  a non-empty string. `random.shuffle` exchanges arbitrary positions the way
  Fisher-Yates does. Every property therefore holds for every outcome of the
  random draws.
- `History.dfy` holds the saved records. `HistoryStore` is a class whose
  `records` sequence the save and clear actions reassign. `is_duplicate` is a
  function that reads it.

An empty account name does not always become "Unnamed Account". The code
substitutes it only when saving from the check tab (app.py:98-99). The
generate tab stores the name exactly as entered (app.py:133-140), so
`HistoryStore.SaveGenerated` stores the name as it is given.

## Model

| member | source | states |
|---|---|---|
| `CharClasses.Any` | app.py:22-25 | `any(p(c) for c in s)` holds exactly when some position of `s` satisfies `p` |
| `Strength.CountTrue` | app.py:27 | the `sum` of the criteria values is the multiplicity of `true` among them; it is at most their number, equals it exactly when all hold, and is 0 exactly when none holds |
| `Strength.CheckStrength` | app.py:18-28 | length holds iff the password has at least 8 characters; uppercase, lowercase, digits and special each hold iff some character is in that class; the score is the number of criteria that hold, between 0 and 5 |
| `Strength.StrengthLabel` | app.py:31-37 | "Strong" exactly for score 5, "Moderate" exactly for scores of 3 or more other than 5, "Weak" exactly below 3 |
| `Strength.StrongIffAllCriteria` | app.py:18-37 | a password is labelled strong iff it meets all five criteria |
| `Strength.ModerateIffThreeOrFour` | app.py:18-37 | a password is labelled moderate iff it meets three or four criteria |
| `Strength.WeakIffThreeFail` | app.py:18-37 | a password is labelled weak iff at least three of its criteria fail |
| `Strength.CountNegated` | app.py:27 | the criteria that fail and those that hold together account for all of them |
| `Strength.EmptyPasswordIsWeak` | app.py:18-37 | the empty password meets no criterion, scores 0 and is weak |
| `Strength.AllClassesIsStrong` | app.py:18-37 | eight or more characters with an upper-case letter, a lower-case letter, a digit and a special character score 5 and are strong |
| `Strength.ShortIsNotStrong` | app.py:21 | a password shorter than 8 characters is never labelled strong |
| `CharClasses.AlphabetsAgreeWithTests` | app.py:22-25 | every character the generator takes from a class passes the strength check's test for that class |
| `Generator.Choice` | app.py:61 | `random.choice` returns a character of the non-empty string it is given |
| `Generator.Shuffle` | app.py:72 | `random.shuffle` keeps the length and returns a permutation of its input |
| `Generator.CharPool` | app.py:47-57 | the pool is never empty and holds exactly the allowed characters: those of the enabled classes, or all letters, digits and specials when no class is enabled |
| `Generator.Seed` | app.py:59-67 | seeding adds one allowed character per enabled class, and each enabled class is then represented |
| `Generator.GeneratePassword` | app.py:46-73 | the result has exactly `length` characters, all allowed; when `length` is at least the number of enabled classes, every enabled class appears |
| `Generator.ContainsAppend` | app.py:69-70 | appending a character keeps every class already represented and adds the character's own class |
| `Generator.PermutationKeepsClass` | app.py:72 | a shuffle keeps every class that was represented |
| `Generator.AllClassesGeneratedIsStrong` | app.py:46-73 | a generated password of length 8 or more with all four classes represented is labelled strong |
| `History.Occurrences` | app.py:43 | the count of records carrying the password is at most the history's size, and is 0 exactly when no record carries it |
| `History.TwoOccurrences` | app.py:43 | a count of at least two is the same as two different records carrying the password |
| `History.OccurrencesAppend` | app.py:103-108 | appending a record adds one occurrence of its own password and none of any other |
| `History.HistoryStore.constructor` | app.py:14-15 | a session starts with an empty history |
| `History.HistoryStore.IsDuplicate` | app.py:40-43 | false on an empty history; otherwise true iff two different records carry exactly this password, so a single occurrence gives false |
| `History.HistoryStore.Save` | app.py:96-111 | an empty password changes nothing; otherwise exactly one record is appended at the end, with the password's label and "Unnamed Account" for an empty name; the password is then a duplicate iff it had been saved before |
| `History.HistoryStore.SaveGenerated` | app.py:134-143 | exactly one record is appended at the end, with the generated password's label and the name as entered; it is then a duplicate iff it had been saved before |
| `History.HistoryStore.Clear` | app.py:151-152 | the history becomes empty and no password is a duplicate |

## Left out

- The Streamlit interface is not modelled: page setup, tabs, inputs, sliders, checkboxes, buttons, messages, the sidebar and `experimental_rerun` (app.py:8-11, 76-175). The nested buttons of the generate tab appear only as the final append, `SaveGenerated`.
- The history tab's newest-first display (app.py:156-161) is presentation only.
- The timestamp comes from the clock (app.py:101, 136). It is an opaque string parameter of `Save` and `SaveGenerated`.
- The progress-bar value `score / 5`, clamped to [0.0, 1.0] (app.py:87), is a float used only for display.
- The distribution of `random.choice` and `random.shuffle` is not modelled. No claim is made about uniformity or security.
- The `hashlib` import (app.py:5) is never used.
- CheckStrength: the upper-case, lower-case and digit criteria accept ASCII characters only, because Unicode letter and digit categories are not modelled; Python's tests also accept non-ASCII ones such as `É` or `٣`.
- GeneratePassword: takes `length` as a natural number. Python slicing with a negative `length` drops characters from the end, and the slider keeps `length` between 8 and 32 (app.py:117).
- The guard `'history' not in st.session_state` (app.py:14, 41) is not modelled as a separate case. The store always exists once constructed.
