# California house price form: feature encoding and chat session, in Dafny

The house price app is a single web page. It reads eight numeric fields and one
ocean-proximity choice, builds a 12-entry feature row, scales it with a saved
scaler and passes it to a saved linear regression model. The page also has a
chat panel: a button opens and closes it, and each message goes to an external
language model together with a transcript of the conversation so far.

This project models the two parts of that page that carry discrete logic.

- **Encoder** (`encoder.dfy`). The ocean-proximity choice becomes four 0/1
  flags, the variables INLAND, ISLAND, NEAR_BAY and NEAR_OCEAN at app.py:92-95. `<1H OCEAN` is the reference
  level and encodes as all zeros. The flags follow the eight numeric fields to
  make the feature row. The numeric fields go through unchanged, so they are
  modelled as opaque `real` values.
- **Schema** (`schema.dfy`). These are the column names the model was trained
  on. The training script dummy-encodes the categorical column and drops the
  first level. The other columns keep their order, and one
  `ocean_proximity_<level>` column is appended for each remaining level, in
  ascending string order. `ColumnValue` says what each training column means
  for a raw record. `FeatureRowFollowsSchema` proves that the row the form
  builds by hand has that value at every position.
- **ChatSession** (`chat_session.dfy`). This is the per-session state, modelled
  as a class. `chatOpen` and `chatMessages` are `Option` fields. `None` means
  the key has not been set in the session yet. `Initialize` sets a key only
  when it is absent, `Toggle` flips the panel, and `SendMessage` handles one
  chat submission. The transcript is built by a loop, which is proved equal to
  `Transcript`, a fold over the history. The class invariant says the history
  is answered: every assistant entry directly follows a user entry. It does not
  say exchanges are whole, because the user entry is stored before the language
  model is called, and a call that fails leaves that entry without a reply.
- **Wrappers** (`wrappers.dfy`). A small `Option` type.

Two details of the code are easy to get wrong:

- **No check for an unknown category.** The form does not reject a category
  outside the five. Such a string fails the four comparisons at app.py:92-95
  and encodes like `<1H OCEAN` (`UnknownLevelIsReference`). On the page this
  cannot happen, because the selector only returns its five options.
- **Column names keep the space.** Dummy encoding keeps the level string as it
  is, so two of the flag columns are `ocean_proximity_NEAR BAY` and
  `ocean_proximity_NEAR OCEAN`, with the space.

## Model

| member | source | states |
|---|---|---|
| `Encoder.Label` | app.py:87-90 | every value of the ocean-proximity type is one of the selector's five option strings |
| `Encoder.LabelsAreChoices` | app.py:87-90 | the option strings are exactly the labels of the five values, and distinct values have distinct labels |
| `Encoder.OceanFlags` | app.py:92-95 | there are four flags, each 0 or 1, and flag k is 1 exactly when the selected string is the k-th non-reference level (INLAND, ISLAND, NEAR BAY, NEAR OCEAN) |
| `Encoder.AtMostOneFlag` | app.py:92-95 | for any selected string, no two flags are 1 at once |
| `Encoder.OneHot` | app.py:89-95 | the flags are all zero exactly for `<1H OCEAN`; every other value sets exactly one flag (the flag sum is 0 or 1 accordingly) |
| `Encoder.UnknownLevelIsReference` | app.py:92-95 | a string that is not one of the five options gets the same flags as `<1H OCEAN` |
| `Encoder.DecodeFlagsOfFlags` | app.py:92-95 | decoding the flags of any value gives that value back |
| `Encoder.FlagsOfDecodeFlags` | app.py:92-95 | a flag pattern that decodes at all is exactly the flags of the value it decodes to |
| `Encoder.FlagsInjective` | app.py:92-95 | two values with the same flags are the same value |
| `Encoder.FeatureRow` | app.py:97-100 | the row has 12 entries: longitude, latitude, age, rooms, bedrooms, population, households and income, unchanged and in that order, then four entries that are each 0.0 or 1.0, where entry 8+k is 1.0 exactly when the selection is the k-th non-reference level |
| `Encoder.DecodeRowOfFeatureRow` | app.py:97-100 | the numeric inputs and the selected value can both be read back from the row |
| `Encoder.FeatureRowOfDecodeRow` | app.py:97-100 | every 12-entry row that decodes is the feature row of what it decodes to |
| `Encoder.SampleRowMatches` | Housing.py:35 | encoding the training script's sample house through the form gives exactly its hand-built row, with INLAND as `1, 0, 0, 0` in positions 8 to 11 |
| `Encoder.DefaultRow` | app.py:78-90 | the untouched form, with the selector on its first option, encodes the default values followed by four zero flags |
| `Schema.ChoicesAscending` | Housing.py:7 | the selector's options are in ascending string order, so the sorted levels seen in training are the same list and the dropped first level is `<1H OCEAN` |
| `Schema.Without` | Housing.py:12 | dropping a column keeps exactly the other columns |
| `Schema.DummyNames` | Housing.py:7 | there is one `<prefix>_<level>` name per level, in the levels' order |
| `Schema.DummyColumns` | Housing.py:7 | dummy encoding with the first level dropped keeps every other column in its order at the front, then adds one `<categorical>_<level>` column for each level after the first, in level order; none of them is named after the dropped first level |
| `Schema.TrainingColumns` | Housing.py:12 | neither the target nor the raw categorical column is among the feature columns |
| `Schema.EncodedDataColumns` | Housing.py:7 | dummy encoding keeps the numeric columns and the target in place and appends the four flag columns |
| `Schema.DropTarget` | Housing.py:12 | dropping the target leaves the numeric columns followed by the flag columns |
| `Schema.TrainingColumnsLayout` | Housing.py:7-12 | the training columns are the eight numeric columns, then `ocean_proximity_` plus INLAND, ISLAND, NEAR BAY and NEAR OCEAN: 12 in all |
| `Schema.FeatureRowFollowsSchema` | app.py:97-100 | the form's row has one entry per training column, and each entry is the value its training column stands for |
| `ChatSession.TranscriptAppend` | app.py:220-222 | the transcript of two histories run together is the two transcripts run together |
| `ChatSession.TranscriptCons` | app.py:220-222 | read from the front, the transcript is the first entry's `role: text` line followed by the transcript of the rest |
| `ChatSession.TranscriptLineCount` | app.py:220-222 | when no role or text contains a newline, the transcript has exactly one newline per history entry |
| `ChatSession.BuildTranscript` | app.py:220-222 | the loop's result is `role + ": " + text + "\n"` over the history, oldest entry first |
| `ChatSession.AlternatingRoles` | app.py:218-236 | a history of whole exchanges is exactly one of even length with `user` at even and `assistant` at odd positions |
| `ChatSession.AlternatingExtend` | app.py:218-236 | when every reply arrives, appending one user message and its reply keeps a history made of whole exchanges |
| `ChatSession.AlternatingAnswered` | app.py:218-236 | a history of whole exchanges is answered: every assistant entry directly follows a user entry |
| `ChatSession.AnsweredExtend` | app.py:218-236 | appending a user message keeps a history answered, and so does appending a user message and then its reply |
| `ChatSession.AnsweredAppend` | app.py:218-236 | two answered histories run together, the second starting with a user entry, make an answered history |
| `ChatSession.SetDefaultIdempotent` | app.py:15-19 | initialising a key a second time changes nothing |
| `ChatSession.Session.constructor` | app.py:15-18 | a new session has neither key set |
| `ChatSession.Session.Initialize` | app.py:14-19 | an absent `chat_open` becomes false and an absent `chat_messages` becomes empty; a key that is already present keeps its value; afterwards both keys are present and the history is answered |
| `ChatSession.Session.Toggle` | app.py:202-203 | the panel flag is negated and the history is unchanged |
| `ChatSession.Session.SendMessage` | app.py:207-236 | when the panel is open and the input is non-empty, the history grows by `("user", input)`, followed by `("assistant", reply)` only if a reply arrived, with earlier entries unchanged; the returned transcript covers the old history plus the user message but not the reply; the history stays answered, and stays made of whole exchanges when the reply arrives; otherwise nothing changes; the panel flag is never changed |
| `ChatSession.ToggleTwice` | app.py:202-203 | two presses of the chat button restore the panel flag |
| `ChatSession.InitializeTwice` | app.py:15-19 | initialising twice, as every rerun of the page does, has the same effect as initialising once |
| `ChatSession.FirstVisit` | app.py:14-238 | a fresh session that opens the panel and sends two answered messages, with a rerun in between, holds both exchanges in order, and the second prompt's transcript is the first exchange followed by the second question |
| `ChatSession.LostReply` | app.py:216-236 | when the first reply never arrives, the history holds two user entries in a row and then the second reply, so it is answered but not made of whole exchanges, and the second prompt's transcript holds both questions |

## Left out

- Scaling and prediction with the saved scaler and model (app.py:108-109). These are floating-point numerics inside library objects loaded from files.
- The currency formatting of the prediction (app.py:111). It is float formatting.
- The training script, except the column layout of its dummy encoding (Housing.py:7) and its sample row (Housing.py:35). The CSV read, mean imputation, seeded split, scaler fitting, regression fit, metrics and file persistence are library calls over floating-point data.
- `Schema.DummyColumns`: takes the levels already sorted instead of sorting them. The dataset's distinct levels are data, not code. The model assumes they are the five selector options, and `ChoicesAscending` shows that list is already sorted.
- `Schema`: the header order of the training data file (the numeric columns, then the target, then the categorical column) is assumed. The file is not part of this model.
- The outer batch dimension of the feature array (one row). `FeatureRow` is that row.
- The text of the prompt sent to the language model, the call itself and its configuration with the secret key (app.py:23-24, 224-235). This is an external network service. The reply is an arbitrary string parameter of `SendMessage`.
- `SendMessage`: an empty string stands for both "nothing submitted" (`None`) and an empty submission. Both are falsy in the source. A failing service call is modelled only by its effect on the history (`reply` is `None`): the exception itself and the error page it shows are not.
- The rendering of the history with "You"/"Bot" labels (app.py:211-212), and all other widgets, styles, animation loading, charts, map, theme switch and navigation (app.py:28-77, 104-199, 242-245). These are user interface and file I/O.
- The page rerun after a message is sent (app.py:238). This is framework control flow. The session object outlives reruns, and `InitializeTwice` covers the initialisation that every rerun repeats.
