# Lead qualifier: the SMS router, the leads table and the scoring policy

This project is a Dafny model of the core of a small lead-qualification bot
for a roofing contractor. A prospective client texts the bot. The bot asks
for three things in turn: the project's ZIP code, the project type, and the
timeline and budget. It stores the first two answers in a `leads` table keyed
by phone number; the third is not stored. An external scoring service is then
shown all three answers and asked for a score from 0 to 10. The bot classifies
the lead HOT (7 and up), WARM (4 to 6) or COLD.
A HOT lead gets a confirmation, and the contractor gets an alert SMS.

The model has four modules:

- `PyStr` (`pystr.dfy`) models the Python string operations the code relies
  on:
  - `str.strip()`, with Python's own whitespace set;
  - `str.upper()` on ASCII;
  - `str(int)`;
  - `int(str)`, which skips a narrower set of blanks than `str.strip()`.

  It proves that `int(str(i)) == i` exactly when the numeral has at most
  4300 digits, the limit CPython's `int()` enforces by default, also with
  blanks around the numeral. It also proves that stripping is idempotent.
- `Leads` (`leads.dfy`) holds the rows of the table, the status values and
  the insert-or-patch rule of `update_lead` as a function `Upserted` on a
  `map<string, Lead>`.
  - A subset type makes NEW impossible to store, so "NEW" and "no row" mean
    the same thing.
  - An UPDATE whose score lies outside SQLite's signed 64-bit INTEGER range
    raises before it writes, as sqlite3's parameter binding does.
- `Scoring` (`scoring.dfy`) holds `calculate_score` and the alert text of
  `FORWARD_TO_CONTRACTOR`.
  - The scoring service is a parameter of type `Prompt -> OracleReply`. Its
    reply is either a failure or the JSON value found under `"score"`.
  - `CalculateScore` applies Python's `int()` to that JSON value: a missing
    key is 0, a boolean is 0 or 1, a float is truncated toward zero, and a
    string is parsed after the blanks `int()` skips.
  - A null, a container or an unparsable string makes `int()` raise, which
    gives `(0, COLD)`.
- `App` (`app.dfy`) holds the router and the store:
  - `QUESTIONS` and the reply texts;
  - a pure specification `Respond` of one call of `sms_reply` on a table;
  - the class `LeadsTable` with the methods `GetLeadStatus` and
    `UpdateLead`;
  - the method `SmsReply`, which mirrors `sms_reply` statement by statement
    against a `LeadsTable` and is proved equal to `Respond`.

  On top of `Respond`, `Run` and `AlertsFor` handle a sequence of inbound
  messages. Each message carries the scoring service's behaviour at the time
  it is handled, so the service may answer differently from one message to
  the next. The lemmas about them cover the whole life of a lead:
  - statuses never move backward;
  - classified rows are frozen;
  - every row stays consistent: a score exactly when classified, the status
    equal to that score's class, and the score within the 64-bit range;
  - the contractor hears about a phone at most once;
  - a complete four-message conversation ends HOT with exactly one alert.

Four points about what the code does, as opposed to what its comments and
its prompt suggest:

- The docstring of `calculate_score` (scoring_logic.py:26) and its prompt
  (scoring_logic.py:44) speak of a score from 0 to 10, but nothing clamps the
  score the service returns. A score of 15 is stored, classified HOT and shown
  as "15/10".
- A score outside the signed 64-bit range (the service answering `1e20`, or
  the string `"99999999999999999999"`) cannot be bound to the `qual_score`
  column. `update_lead` then raises outside any `try`, so `sms_reply` fails:
  the row stays at Q3, and neither the lead nor the contractor hears anything.
- `sms_reply` reads the lead's status before it checks for an opt-out. The
  read changes nothing, so the reply and the table are as if the check came
  first.
- The classification the scoring service returns is ignored. Only the score
  is used.

## Model

| member | source | states |
|---|---|---|
| `PyStr.IsSpace` | app.py:77 | definition: the characters for which `str.isspace()` holds, the ones `str.strip()` removes |
| `PyStr.IsIntSpace` | scoring_logic.py:71 | definition: the characters `int()` skips around a numeral, the ASCII tab to carriage return and space plus the non-ASCII characters of `str.isspace()`, and not U+001C..U+001F |
| `PyStr.TrimLeft` | app.py:77 | `lstrip`: the result is a suffix of the input, everything dropped is blank, and the result does not start with a blank |
| `PyStr.TrimRight` | app.py:77 | `rstrip`: the result is a prefix of the input, everything dropped is blank, and the result does not end with a blank |
| `PyStr.Trim` | app.py:77 | a contiguous slice of the input with only blanks outside it and no blank at either end |
| `PyStr.Strip` | app.py:77 | definition: `str.strip()` is `Trim` with the `str.isspace()` blanks |
| `PyStr.TrimIdempotent` | app.py:77 | stripping an already stripped message changes nothing |
| `PyStr.TrimUnpadded` | app.py:77 | a string with no blank at either end is its own strip |
| `PyStr.TrimLeftPadded` | app.py:77 | blanks put in front of a string that does not start with one are exactly what `lstrip` removes |
| `PyStr.TrimRightPadded` | app.py:77 | blanks put after a string that does not end with one are exactly what `rstrip` removes |
| `PyStr.TrimPadded` | app.py:77 | stripping a padded string that has no blank at either end gives it back |
| `PyStr.UpperChar` | app.py:84 | lower-case ASCII letters map to their capitals, every other character is kept |
| `PyStr.Upper` | app.py:84 | `str.upper()` keeps the length and upper-cases each character in place |
| `PyStr.UpperIdempotent` | app.py:84 | upper-casing twice is upper-casing once |
| `PyStr.LowerChar` | app.py:84 | capitals map to the lower-case letter that upper-cases back to them, every other character is kept |
| `PyStr.UpperMatches` | app.py:84 | `m.upper() == w` for a word of capitals iff `m` is `w` with any of its letters in lower case |
| `PyStr.NatToString` | app.py:115 | definition: the decimal numeral of a natural number; `NatToStringDigits` states its properties |
| `PyStr.IntToString` | scoring_logic.py:100 | definition: `str(i)`, a minus sign before the numeral of a negative number; `ParseIntToString` states that it reads back |
| `PyStr.NatToStringDigits` | app.py:115 | `str(n)` is a non-empty digit string with no leading zero that reads back as `n` |
| `PyStr.ReadableDigits` | scoring_logic.py:71 | definition: a run of 1 to 4300 ASCII digits, the numerals CPython's `int()` reads under its default digit limit |
| `PyStr.ParseInt` | scoring_logic.py:71 | `int(s)` on the text between the blanks succeeds iff it is a run of 1 to 4300 digits, or a sign followed by one. Leading zeros count toward the 4300 and the sign does not. Its value is the decimal value of the digits, negated after a minus sign |
| `PyStr.PyInt` | scoring_logic.py:71 | definition: `int(s)` on a `str` is `ParseInt` of `s` trimmed of the blanks `int()` skips; the two lemmas below state its behaviour |
| `PyStr.Abs` | app.py:115 | definition: the magnitude of an integer, which `str(i)` prints after the sign |
| `PyStr.IntToStringShape` | app.py:115 | `str(i)` starts with a minus sign iff `i` is negative, and the rest is the numeral of its magnitude |
| `PyStr.IntToStringInjective` | app.py:115 | two integers with the same `str` text are equal |
| `PyStr.Pow10` | scoring_logic.py:71 | definition: the power of ten `NatToStringLength` compares with |
| `PyStr.NatToStringLength` | scoring_logic.py:71 | the numeral of `n` has at most `k` digits iff `n < 10^k`, so the 4300-digit limit admits exactly the magnitudes below 10^4300 |
| `PyStr.ParseIntToString` | scoring_logic.py:71 | `int(str(i))` is `i` when the numeral of `i` has at most 4300 digits, negative numbers included, and raises otherwise |
| `PyStr.PyIntPadded` | scoring_logic.py:71 | `int(a + str(i) + c)` is `i` under the same digit limit, and raises past it, whenever `a` and `c` consist of blanks `int()` skips |
| `PyStr.PyIntRefusesLongNumerals` | scoring_logic.py:71 | a digit run longer than 4300 characters is no integer for `int()`, even when it is mostly leading zeros |
| `PyStr.PyIntKeepsSeparators` | scoring_logic.py:71 | a string starting with one of U+001C..U+001F is no integer for `int()`, although `str.strip()` drops that character |
| `Leads.Rank` | app.py:89-124 | positions along NEW, Q1, Q2, Q3, classified: 0 exactly for NEW, 4 exactly for HOT, WARM and COLD |
| `Leads.StatusOf` | app.py:31-37 | `get_lead_status` is NEW exactly when the phone has no row, and otherwise the stored status |
| `Leads.ApplyPatch` | app.py:49-58 | an UPDATE overwrites exactly the columns the call names and never the timestamp |
| `Leads.FreshLead` | app.py:43-47 | definition: the row the INSERT writes, status Q1 stamped with the time and no other column set; `Upserted` states when it is written |
| `Leads.Inserts` | app.py:43 | definition: `update_lead` takes its INSERT branch iff the phone reads as NEW and the call sets status Q1; `Upserted` states what each branch writes |
| `Leads.FitsInteger` | app.py:22 | definition: the range of an SQLite INTEGER, from -2^63 to 2^63 - 1 |
| `Leads.Binds` | app.py:52-58 | definition: every value the UPDATE binds fits its column, which for the score means the 64-bit range; `Upserted` and `UpdateOverflows` use it |
| `Leads.UpdateOverflows` | app.py:49-58 | definition: `update_lead` raises iff it takes the UPDATE branch and the score it binds does not fit an SQLite INTEGER |
| `Leads.Upserted` | app.py:39-58 | `update_lead`: a phone has a row afterwards iff it had one or the call sets Q1. The first Q1 inserts `(Q1, now)` and nothing else. Otherwise the phone's own row is patched and keeps its timestamp. A patch on an absent phone, or one whose score does not bind, changes nothing |
| `Leads.UpsertTouchesOnlyPhone` | app.py:39-58 | `update_lead` adds, drops and changes no row of any other phone |
| `Scoring.Classify` | scoring_logic.py:73-78 | HOT iff score ≥ 7, WARM iff 4 ≤ score < 7, COLD iff score < 4 |
| `Scoring.ClassifyMonotone` | scoring_logic.py:73-78 | a higher score never gives a colder class |
| `Scoring.TruncateTowardZero` | scoring_logic.py:71 | `int(x)` on a float is the integer next to `x` on the side of zero |
| `Scoring.ToPyInt` | scoring_logic.py:71 | `int(result.get("score", 0))` for each kind of JSON value: missing gives 0, integer gives itself, a string is read by `int(str)`, a boolean gives 0 or 1, a float is truncated, and null or a container raises |
| `Scoring.TextScoreReadsBack` | scoring_logic.py:71 | a score sent as a string, with any blanks `int()` skips around its numeral, reads as that score when its numeral has at most 4300 digits, and raises otherwise |
| `Scoring.WholeFloatReadsBack` | scoring_logic.py:71 | a score sent as a float with no fractional part reads as that integer |
| `Scoring.PromptFor` | scoring_logic.py:39-53 | definition: the prompt shows the stored ZIP and project type and the final answer; `CalculateScoreDeterministic` states that the score depends on the service only through this prompt |
| `Scoring.CalculateScore` | scoring_logic.py:24-84 | the class is always `Classify` of the returned score. No row gives `(0, COLD)`, and so does a failed call. Otherwise the result is the converted score and its class, or `(0, COLD)` when `int()` raises |
| `Scoring.MissingScoreIsCold` | scoring_logic.py:71-84 | a reply without a `"score"` key gives `(0, COLD)` |
| `Scoring.LongNumeralIsCold` | scoring_logic.py:71-84 | a score sent as a string of more than 4300 digits makes `int()` raise and gives `(0, COLD)` |
| `Scoring.CalculateScoreDeterministic` | scoring_logic.py:29-80 | the result depends on the service only through its reply to the prompt built from the stored ZIP, project type and final answer |
| `Scoring.RubricScore` | scoring_logic.py:46-50 | the rubric's points lie in 0..10 and reach 10 only when all four criteria hold |
| `Scoring.RubricClassification` | scoring_logic.py:46-50 | per the rubric: HOT iff urgent and either budget/insurance or both full replacement and valid ZIP. COLD iff not urgent and not budget/insurance together with full replacement or a valid ZIP. WARM otherwise |
| `Scoring.AlertMessage` | scoring_logic.py:99-108 | the alert starts with the "URGENT HOT LEAD" heading and contains `score/10`, the `CLIENT:`, `PROJECT ZIP:` and `SCOPE:` lines |
| `Scoring.Show` | scoring_logic.py:103-107 | a set column shows as its value; a NULL column shows as `None`, as an f-string prints it. `ForwardToContractor` uses it for the ZIP and project type |
| `Scoring.ForwardToContractor` | scoring_logic.py:87-108 | the alert built from the stored row shows the score, the phone and, when set, the stored ZIP and project type |
| `App.QuestionsDistinct` | app.py:65-70 | `QUESTIONS` (the constant `App.Questions`, which `Text` uses for the replies) has exactly the keys Q1 to Q4, and no two of its texts are the same |
| `App.Text` | app.py:89-124 | definition: the text of each reply; the three lemmas below state what the greeting and the HOT confirmation contain |
| `App.WelcomeAsksForZip` | app.py:92 | the greeting contains `QUESTIONS['Q1']` and the opt-out notice |
| `App.HotConfirmationShowsScore` | app.py:115 | the HOT confirmation contains `score/10` |
| `App.HotConfirmationDeterminesScore` | app.py:115 | two HOT confirmations are the same text only for the same score |
| `App.IsOptOut` | app.py:84 | definition: the upper-cased message is STOP, QUIT or END; `OptOutWordsExactly` characterises it |
| `App.OptOutWordsExactly` | app.py:84 | a message is an opt-out iff it is STOP, QUIT or END with any of its letters in lower case |
| `App.Greet` | app.py:89-93 | definition of the NEW branch; `FirstMessageInserts` states its outcome |
| `App.TakeZip` | app.py:96-99 | definition of the Q1 branch; `ZipAnswerStored` states its outcome |
| `App.TakeProjectType` | app.py:101-104 | definition of the Q2 branch; `ProjectTypeStored` states its outcome |
| `App.Qualify` | app.py:106-120 | definition of the Q3 branch; `QualifyWrites` states its outcome |
| `App.Respond` | app.py:74-126 | definition: one call of `sms_reply` on a table; the lemmas from `OptOutIsNoOp` to `RespondKeepsConsistent` state its behaviour in every status |
| `App.OptOutIsNoOp` | app.py:77-85 | STOP, QUIT or END, in any case and with any surrounding whitespace, gives an empty reply, no alert and an unchanged table, whatever the status |
| `App.FirstMessageInserts` | app.py:89-93 | from NEW the table gains exactly the row `(Q1, now)` and the reply is the greeting |
| `App.ZipAnswerStored` | app.py:96-99 | from Q1 the stripped body becomes the ZIP, the status becomes Q2, nothing else changes, and the reply is `QUESTIONS['Q2']` |
| `App.ProjectTypeStored` | app.py:101-104 | from Q2 the stripped body becomes the project type, the status becomes Q3, nothing else changes, and the reply is `QUESTIONS['Q3']` |
| `App.QualifyWrites` | app.py:106-120 | from Q3 one write sets the status to the class of the score and stores that score, and nothing else changes. HOT gets the confirmation with that score and an alert with it. WARM and COLD get `QUESTIONS['Q4']` and no alert. A score outside the 64-bit range leaves the table unchanged, with no reply and no alert |
| `App.FinalAnswerClassifies` | app.py:106-120 | the same as `QualifyWrites`, for `sms_reply` on a phone at Q3 whose message is not an opt-out |
| `App.OversizedScoreAborts` | app.py:106-112 | a score above 2^63 - 1 at Q3 leaves the table unchanged, and nothing is sent to the lead or the contractor |
| `App.AlertOnlyWhenHot` | app.py:114-120 | an alert goes out iff the message is not an opt-out, the phone was at Q3 and its row is now HOT |
| `App.ClassifiedIsAbsorbing` | app.py:122-124 | for a HOT, WARM or COLD lead the table is unchanged and no alert goes out. The reply is the acknowledgement, or none for an opt-out |
| `App.AlertCarriesStoredScore` | app.py:109-117 | an alert's score is the one just stored in the phone's row, which is HOT |
| `App.RespondNeverBackward` | app.py:89-124 | one message keeps every row and moves no phone backward along NEW, Q1, Q2, Q3, classified. A classified row stays as it was |
| `App.RespondKeepsConsistent` | app.py:91-112 | one message keeps every row consistent: a ZIP from Q2 on, a project type from Q3 on, a score exactly when classified, the status equal to that score's class, and the score within the 64-bit range |
| `App.RunNeverBackward` | app.py:89-124 | the same as `RespondNeverBackward`, over any sequence of messages |
| `App.RunKeepsConsistent` | app.py:91-112 | the same as `RespondKeepsConsistent`, over any sequence of messages |
| `App.AlertsAtMostOnce` | app.py:114-117 | over any sequence of messages the contractor is alerted at most once per phone, and never about a phone already classified |
| `App.ScoresHot` | scoring_logic.py:71-80 | an integer reply of 7 or more gives that score and HOT |
| `App.ConversationGreets` | app.py:89-93 | the first message of a new phone that is not an opt-out, followed by any messages, leads to the table with `(Q1, now)` and sends no alert |
| `App.ConversationTakesZip` | app.py:96-99 | at Q1, a message followed by any messages stores the stripped message as the ZIP and moves to Q2, with no alert |
| `App.ConversationTakesProjectType` | app.py:101-104 | at Q2, a message followed by any messages stores the stripped message as the project type and moves to Q3, with no alert |
| `App.ConversationQualifies` | app.py:106-117 | at Q3, an answer the service scores from 7 up to 2^63 - 1 stores HOT with the score and sends exactly one alert |
| `App.FullConversation` | app.py:74-124 | a new phone sends a greeting, a ZIP, a project type and an answer the service scores `s`, from 7 up to 2^63 - 1. Its row ends `(stripped ZIP, HOT, s, stripped project type, first time)`, every other row is unchanged, and exactly one alert is sent |
| `App.LeadsTable.constructor` | app.py:13-29 | a new database starts with no rows |
| `App.LeadsTable.GetLeadStatus` | app.py:31-37 | returns `StatusOf` of the current table: NEW for a phone without a row |
| `App.LeadsTable.UpdateLead` | app.py:39-61 | the table afterwards is `Upserted` of the table before, and the call reports failure exactly when its score does not bind |
| `App.SmsReply` | app.py:74-126 | the imperative handler leaves the table `Respond` gives. Its reply is the text of `Respond`'s reply, none when the final write raises. Its alert is the alert text built from the row just written, sent exactly when `Respond` alerts |

## Left out

- Flask routing and the TwiML wrapper: a reply is a plain string, or none for an empty response or a failed request. An exception inside `sms_reply` is not distinguished from an empty reply; only the overflowing score write raises in the modelled code.
- SQLite: connections, `init_db`'s DDL and the auto-increment `id` column. The table is a map from phone number to row.
- The OpenAI request, its system prompt text and `json.loads`. These are replaced by the oracle parameter, which gives either a failure or the JSON value under `"score"`.
- Twilio, the contractor's number and the environment variables. An alert is the text `FORWARD_TO_CONTRACTOR` would send, and a send that fails after the commit is not modelled.
- The stray module-level webhook POST at the end of app.py. test_dashboard.py and export_data.py are not part of this model: they are I/O scripts with no logic.
- Concurrency: two messages from one phone at once, and SQLite locking. Messages are handled one at a time.
- `datetime.now()`: the time is a string supplied by the caller.
- A form without a `Body` or a `From` field. A missing `Body` crashes `sms_reply` at once. A missing `From` reads as NEW and then fails the NOT NULL constraint on `phone_number` in the INSERT. Every message here has both fields.
- `PyStr.UpperChar` and `PyStr.Upper`: upper-case ASCII letters only. Python's full Unicode mapping (ligatures, `ß`, `ı`) is not modelled. Characters that Python upper-cases to ASCII letters, such as `ſ` and the ligature `ﬆ`, can make a Python opt-out (`ſtop` gives `STOP`). This model does not treat such a message as an opt-out.
- `PyStr.ParseInt` and `PyStr.PyInt`: accept only ASCII digits with an optional sign. Python's `int()` also accepts underscores between digits and non-ASCII decimal digits.
- `PyStr.ParseInt`: the digit limit is fixed at CPython's default of 4300. A limit changed by `sys.set_int_max_str_digits` or `PYTHONINTMAXSTRDIGITS`, and the Python releases before the limit existed (3.10.6 and earlier), which read a numeral of any length, are not modelled.
- `PyStr.IntToString`: prints an integer of any size. CPython's `str()` also refuses more than 4300 digits, but the code only prints scores that were first stored, and a stored score fits in 64 bits.
- `Scoring.ToPyInt`: the JSON floats NaN and infinity, where `int()` raises, are not representable as `real`. They would give `(0, COLD)`.
- `App.LeadsTable.UpdateLead`: a call that names no column would build an UPDATE with an empty SET clause, which SQLite rejects. No such call exists in the router, so the method requires at least one column.
- `Leads.Patch`: a patch cannot set a column to NULL or name the `phone_number` or `timestamp` columns. The router never does either.
- `Scoring.ForwardToContractor`: requires the phone to have a row. `FORWARD_TO_CONTRACTOR` unpacks the row without a check (scoring_logic.py:97) and would crash before sending. It is only called right after that row was written.
