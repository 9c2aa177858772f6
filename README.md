# OpenManus web control panel: configuration mirror and session transcript

A Dafny model of the logic of its own in `web_ui.py`, the Streamlit control
panel of OpenManus. That logic has two parts:

- **The configuration mirror.** The sidebar form is seeded from the loaded
  TOML document. Each field is read with `section.get(key, default)` and a
  missing section reads as `{}`; the engine name becomes a position in
  `["Google", "Baidu", "DuckDuckGo"]`. Pressing save replaces the `llm`,
  `browser`, `search` and `sandbox` entries of the document wholesale with
  tables built from the form, then writes the document back.
- **The session transcript.** `st.session_state` holds the agent handle and
  `chat_history`. Each is created only when absent. A truthy chat input is
  appended as a `user` entry and the agent is run on it. The run's success or
  failure only decides which banner is shown. The clear button resets the
  transcript to `[]`.

Files:

- `wrappers.dfy`: `Option`.
- `toml.dfy`: `Value`, the TOML value kinds (string, integer, float, boolean,
  date-time, array, table), and `Get`, Python's `dict.get`.
- `config_mirror.dfy`: the form (`Form`), seeding (`Seed`), saving
  (`ApplyForm`), and the class `ConfigPanel` holding the file and the
  script's `config` dictionary. It also holds a reference table of the 22
  managed fields (`ManagedFields`: path, key, literal default) and the
  lemmas that tie seeding and saving to that table and to each other.
- `chat_session.dfy`: transcript entries, session initialisation
  (`Initialized`), appending (`Appended`), the class `Session`, and a
  reference description of a whole session as a sequence of submits and
  clears (`Replay`).
- `web_ui.dfy`: `RunScript`, one top-to-bottom run of the script that
  composes the two parts.

Behaviour of the script that the model keeps:

- No assistant entry is ever appended to the transcript, whether the agent's
  run succeeds or raises; only the banner differs.
- A prompt made only of whitespace is truthy, so it is appended and the agent
  is run on it.
- Nothing stops a second submission while the agent is running.
- Loading does not add missing sections. They are read as `{}`, and only a
  save writes them.
- A read that raises does not fall back to defaults. A section that is
  present but is not a table makes `.get` raise (AttributeError), and an
  unknown engine makes `list.index` raise (ValueError). Either one ends the
  script run before the save button and the chat area are reached.
  `Seed` returns `Err` for these cases, and `RunScript` stops there.

## Model

| member | source | states |
|---|---|---|
| ConfigMirror.IndexOf | web_ui.py:89 | `list.index`: the result is a position holding the value with no earlier occurrence; there is no result (ValueError) exactly when the value is not in the list |
| ConfigMirror.Seed | web_ui.py:51-100 | the sidebar's reads in script order: a `NotATable` error names the first section in read order (`llm`, `llm.vision`, `browser`, `browser.proxy`, `search`, then `sandbox` after the engine lookup) that is present but not a table; an `UnknownEngine` error carries the stored or default engine, which is not an option, and comes only when the five sections before it are readable. What a successful seed yields is stated by `SeedFailsExactly`, `SeedAgreesWithReference` and `MissingFieldsTakeDefaults` |
| ConfigMirror.SeedFailsExactly | web_ui.py:51-100 | seeding succeeds if and only if every section on the paths `llm.vision`, `browser.proxy`, `search` and `sandbox` is either absent or a table, and the stored or default engine is one of the three options; an engine error carries the offending value |
| ConfigMirror.SeedAgreesWithReference | web_ui.py:51-100 | the seeded form equals, field by field, the reference table: each of the 22 fields is read at its own path (vision fields only from `llm.vision`, proxy fields only from `browser.proxy`) and falls back to its literal default |
| ConfigMirror.MissingFieldsTakeDefaults | web_ui.py:53-100 | a field whose key or any section on its path is missing shows its literal default: 8192, 0.0, False, True, "Google", 300, True or "" |
| ConfigMirror.SeedOfEmptyDocument | web_ui.py:51-100 | a document without any of the four sections seeds the all-defaults form, with engine index 0 ("Google") |
| ConfigMirror.SeedReadsOnlyManagedFields | web_ui.py:51-100 | two documents that store the same values at the 22 managed paths seed the same form: nothing else is read |
| ConfigMirror.ApplyForm | web_ui.py:106-145 | after a save the top-level keys are the old keys plus the four managed sections, and every other top-level entry is unchanged |
| ConfigMirror.SaveStoresEveryField | web_ui.py:106-145 | a save stores every form value at its field's path, so every managed key is present afterwards |
| ConfigMirror.SavedSectionsHaveExactKeys | web_ui.py:106-145 | replace, not merge: after a save `llm`, `llm.vision`, `browser`, `browser.proxy`, `search` and `sandbox` are tables with exactly the keys the form writes, so any other key they held before, including a key that belongs to another section, is gone |
| ConfigMirror.SeedAfterSave | web_ui.py:53-145 | round trip: seeding the saved document gives back exactly the saved form, including the engine index |
| ConfigMirror.UneditedSaveIsIdempotent | web_ui.py:53-147 | saving the seeded form unedited stores each field's seeded value, with missing ones materialised as their defaults; seeding again gives the same form, and a second unedited save leaves the document unchanged |
| ConfigMirror.EditedModelSurvivesReload | web_ui.py:53-147 | editing the model field, saving and seeding again shows the edited model |
| ConfigMirror.ConfigPanel.Load | web_ui.py:47 | loading makes the script's `config` the document in the file and leaves the file alone |
| ConfigMirror.ConfigPanel.Save | web_ui.py:104-147 | the script's `config` becomes the form applied to it; every top-level key outside the four sections keeps its value; the result seeds back to the form; the file receives the new document |
| ChatSession.Initialized | web_ui.py:29-32 | after initialisation both session keys are present; an existing agent or transcript is kept; a fresh session gets the new agent and `[]` |
| ChatSession.InitIsIdempotent | web_ui.py:29-32 | initialising twice is the same as initialising once: no second agent, no lost transcript |
| ChatSession.Appended | web_ui.py:160-162 | a truthy prompt adds exactly one entry `{user, prompt}` at the end and keeps all earlier entries; a falsy prompt leaves the transcript unchanged |
| ChatSession.Prompts | web_ui.py:160-162 | every entry created by submissions is a user entry with non-empty content |
| ChatSession.ReplayIsPromptsSinceClear | web_ui.py:160-179 | over any sequence of submits and clears, the transcript is exactly the truthy prompts since the last clear, in order, as user entries; the agent's outcome has no effect on it |
| ChatSession.Session.Init | web_ui.py:29-32 | each session key is set only when absent; an agent is constructed exactly when none was present |
| ChatSession.Session.Submit | web_ui.py:160-175 | a truthy prompt is appended and the agent is run on it; a falsy prompt neither changes the transcript nor runs the agent; success or failure of the run changes only the banner; the agent handle is unchanged |
| ChatSession.Session.ClearHistory | web_ui.py:178-179 | the transcript becomes `[]` and the agent handle is unchanged |
| WebUi.RunScript | web_ui.py:29-179 | one script run: initialise the session, load and seed; if seeding raises, nothing after it runs (the transcript and the file are untouched); otherwise an optional save writes the applied form, the chat input is handled, and the clear button empties the transcript |

## Left out

- Streamlit rendering and layout: page setup, title, expanders, the history display loop (lines 155-157), chat bubbles, spinner, success and error banners as UI, `st.rerun`, the footer. These are UI only. The banner appears only as a `Banner` value.
- Widget behaviour: `number_input` clamping to `min_value`/`max_value`, the conversion a widget applies to its initial value, and a widget raising on a value of the wrong type. These belong to the Streamlit library. Widget outputs are arbitrary inputs to `Save`, and an unedited widget is taken to return the value it was seeded with.
- File and TOML handling in `load_config` and `save_config` (lines 35-42): opening the fixed path, parsing with `tomli`, and serialising with `tomli_w` are I/O and libraries outside this model. The file is modelled by the document it holds, and parsing is taken to invert serialising. Read and write failures are not modelled.
- Key order: Python dictionaries keep insertion order, and this decides the order of keys in the written TOML file. Tables here are maps, so order is not modelled.
- The agent: `Manus()` and `asyncio.run(agent.run(prompt))` are a foreign, asynchronous agent. The handle is an opaque `AgentHandle` passed in. A run is a success/failure flag, and its output is unused, as in the source. `logger.error` is logging and is left out.
- Floats: a TOML float is carried as its 64-bit pattern (`Float(bits)`), and no arithmetic is done on it. The default 0.0 is the all-zero pattern.
