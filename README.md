# Content Builder Agent client — a Dafny model

This project models the core of the Streamlit front end of the content builder agent
(`streamlit_app.py`). That core has four parts:

- **Backend addressing.** The two environment values `AGENT_API_URL` and
  `TFY_SERVICE_ROOT_PATH` are read with their defaults, and every trailing `/` is
  stripped (`str.rstrip("/")`). `api(path)` joins base, root path and endpoint by plain
  concatenation. `file_url(rel)` is `api("/files/" + rel)`.
- **Conversation state.** The session keeps a `thread_id` and a `history` of turns
  `{role, content, meta?}`. Start-up fills only the keys that are missing.
  "New conversation" installs a fresh thread id and an empty history. "Run agent" appends
  a user turn and then exactly one assistant turn. For a reply, that turn carries the
  reply as `meta` and its text (`final_text or response or ""`). For a failed call, it
  carries `"Error calling backend: " + description` and no `meta`.
- **Artifact location.** A newest-first scan with `break` finds the latest assistant turn
  whose `meta` is a dict. If that meta is missing or empty, the page asks the user to run
  the agent. If it lacks `platform` or `slug`, the page says so. Otherwise three relative
  paths (markdown, hero image, social image) are resolved, each on its own: a non-empty
  `files` entry if one exists, else a fixed template.
- **Preview slots.** Each path is fetched from the `/files/` mount. Markdown is shown on
  status 200 with a body that is not all whitespace. An image is shown on status 200.
  A transport error is reported in that slot alone.

Modules: `Text` (`text.dfy`: Python truthiness, `or` chains, `rstrip`/`lstrip`/`strip`),
`BackendUrl` (`backend_url.dfy`), `Conversation` (`conversation.dfy`: turns, the
`Session` class over `st.session_state`, submission) and `Outputs` (`outputs.dfy`: the
scan, path resolution, preview slots).

The session is a class. Its methods update `threadId` and `history` in place, as the
script does with `st.session_state`. A key that is not yet set is `None`. The scan over
`reversed(history)` is a loop method. It is proved equal to the recursive specification
`LatestMetaOf`, and the lemmas about the scan are stated over that function.

The agent's reply is the record `Meta`. It holds optional `platform`, `slug`,
`final_text` and `response` and an optional `files` map; each is `None` when its key is
absent or null. The set `otherKeys` names every key present whose value no field carries:
keys of other names, and any of the five keys whose value is null. It is needed to tell
the empty dict `{}` (line 143) apart from a non-empty dict without `platform`/`slug`
(line 151), including a reply whose five keys are all null.

## Model

| member | source | states |
|---|---|---|
| `Text.RStrip` | streamlit_app.py:19-21 | `rstrip`'s result is a prefix of the input, does not end in a stripped character, and everything it removed is a stripped character |
| `Text.RStripUnique` | streamlit_app.py:19-21 | those three properties determine the stripped value uniquely |
| `Text.RStripIdempotent` | streamlit_app.py:19-21 | stripping an already stripped value changes nothing |
| `Text.FirstTruthy` | streamlit_app.py:110 | an `a or b or default` chain gives the first present, non-empty candidate, and the default only when there is none |
| `Text.Strip` | streamlit_app.py:173 | `text.strip()` is empty exactly when every character of `text` is Python whitespace |
| `BackendUrl.LoadConfig` | streamlit_app.py:19-21 | each configured value has every trailing `/` removed; an unset URL gives `http://localhost:8000` and an unset root path gives `""` |
| `BackendUrl.Api` | streamlit_app.py:23-27 | the URL is base + root path + endpoint path; with an empty root path this is base + path |
| `BackendUrl.FileUrl` | streamlit_app.py:97-99 | a file URL is base + root path + `/files/` + the relative path |
| `BackendUrl.LoadedConfigHasNoTrailingSlash` | streamlit_app.py:19-27 | neither loaded configuration value ends in `/` |
| `BackendUrl.FileUrlVerbatim` | streamlit_app.py:97-99 | the relative path is exactly the part after `api("/files/")`, inserted with no escaping or normalisation |
| `BackendUrl.FileUrlInjective` | streamlit_app.py:97-99 | two relative paths with the same file URL are equal |
| `BackendUrl.DefaultEndpoints` | streamlit_app.py:19-27 | with neither variable set, every endpoint is under `http://localhost:8000` |
| `Conversation.AssistantText` | streamlit_app.py:110 | the assistant text is `final_text` if non-empty, else `response` if non-empty, else `""`; it is empty exactly when both are missing or empty |
| `Conversation.AfterSubmit` | streamlit_app.py:101-119 | a submission adds exactly two turns and keeps the earlier ones; the first is `{user, task}` without meta; the second is the assistant's, with the reply as meta and its text, or with the error text and no meta |
| `Conversation.SubmitKeepsEarlierTurns` | streamlit_app.py:101-119 | every earlier turn is unchanged by a submission |
| `Conversation.Session.constructor` | streamlit_app.py:32-37 | a new browser session has neither key set |
| `Conversation.Session.Initialize` | streamlit_app.py:32-37 | only missing keys are set (thread id to the fresh id, history to `[]`); on an initialised session nothing changes |
| `Conversation.Session.NewConversation` | streamlit_app.py:46-48 | the thread id becomes the fresh id and the history becomes empty |
| `Conversation.Session.Submit` | streamlit_app.py:88-119 | the history becomes `AfterSubmit` of the old history, the thread id is kept, and the POST goes to `/run_agent` with the current thread id and the typed text |
| `Outputs.LatestAssistantMeta` | streamlit_app.py:136-141 | the newest-first scan with `break` returns what the specification `LatestMetaOf` gives |
| `Outputs.LatestMetaIsNewest` | streamlit_app.py:136-141 | the scan finds a meta exactly when some assistant turn has a dict meta, and the meta found belongs to such a turn with no such turn after it |
| `Outputs.LatestAfterReply` | streamlit_app.py:136-141 | after a reply, the scan stops at that reply whatever the older turns hold, even if it lacks `platform` or `slug` |
| `Outputs.LatestAfterFailure` | streamlit_app.py:136-141 | a failed call adds no meta, so the scan finds what it found before |
| `Outputs.ResolvePath` | streamlit_app.py:155-158 | a path is the non-empty `files` entry of its kind if present, else its template |
| `Outputs.Locate` | streamlit_app.py:143-158 | the run-agent-first notice appears exactly when there is no meta or it is `{}` (no key at all, null-valued keys included); paths are located exactly when `platform` and `slug` are both non-empty; each of the three paths is resolved independently from its own `files` entry or template |
| `Outputs.PreviewOf` | streamlit_app.py:136-153 | the preview is located from the newest reply; a history in which no assistant turn has a dict meta shows the run-agent-first notice, and paths are located only if some turn carries meta |
| `Outputs.AllNullReplyIsNotEmpty` | streamlit_app.py:143-153 | a reply whose five keys are all null is not `{}`, so it gets the missing platform/slug notice rather than the run-agent-first one |
| `Outputs.PreviewAfterSubmit` | streamlit_app.py:101-158 | after a reply the preview is located from that reply alone; after a failure it is unchanged; an empty history previews nothing |
| `Outputs.HeroIgnoresPlatform` | streamlit_app.py:157 | the hero image path does not depend on the platform |
| `Outputs.MarkdownOverrideOnly` | streamlit_app.py:155-158 | with `files = {markdown: "x/y.md"}`, platform `blogs` and slug `s`, the paths are `x/y.md`, `blogs/s/hero.png` and `blogs/s/image.png` |
| `Outputs.MissingSlugSuppresses` | streamlit_app.py:151-153 | a reply without a slug suppresses the preview whatever `files` holds |
| `Conversation.LinkedInTranscript` | streamlit_app.py:101-113 | submitting `Create a LinkedIn post about AI agents` to an empty history and getting `final_text = "Done"` gives the transcript `[user: the task, assistant: "Done"]` |
| `Outputs.ConventionalPaths` | streamlit_app.py:155-158 | with no usable `files` entries, all three paths follow their templates |
| `Outputs.LinkedInTemplates` | streamlit_app.py:156-158 | the templates for `linkedin`/`ai-agents` are `linkedin/ai-agents/post.md`, `blogs/ai-agents/hero.png` and `linkedin/ai-agents/image.png` |
| `Outputs.LinkedInPaths` | streamlit_app.py:147-158 | a reply with platform `linkedin`, slug `ai-agents` and empty `files` locates those three paths |
| `Outputs.LinkedInScenario` | streamlit_app.py:101-158 | after submitting and getting that reply, the preview shows those three paths whatever came before |
| `Outputs.MarkdownSlotOf` | streamlit_app.py:171-178 | markdown is shown exactly on status 200 with some non-whitespace character; a transport error is reported with its description |
| `Outputs.ImageSlotOf` | streamlit_app.py:184-201 | an image is shown exactly on status 200, linked by its URL and captioned with its relative path; a transport error is reported with its description |
| `Outputs.RenderOutputs` | streamlit_app.py:160-201 | each slot fetches its own file URL and is decided by that fetch alone |
| `Outputs.HeroFailureIsLocal` | streamlit_app.py:180-191 | a failing hero fetch leaves the markdown and social slots unchanged when their paths differ from the hero path |

## Left out

- All Streamlit rendering and layout: title, sidebar, columns, chat bubbles, spinner, and the transcript loop at lines 124-131. These only display values the model computes.
- The starter-prompt buttons and the `current_prompt` session key (lines 55-83). They only pre-fill the text box, and the typed text is a parameter of `Session.Submit`.
- The HTTP traffic. The POST to `/run_agent` is abstracted as an `Outcome`: a reply object, or the description of the exception. Timeouts, `raise_for_status` and JSON decoding all fall into the failure case. The GETs on `/files/...` are abstracted as a `Fetch`: a status and body, or an exception. Timeouts (300 s, 10 s, 5 s) are not modelled.
- `st.image` fetches the image again to display it. That second fetch is not modelled.
- `load_dotenv` and `os.getenv`. The environment values are `Option<string>` parameters of `LoadConfig`.
- `uuid.uuid4()`. The new thread id is a parameter, so that it differs from the old one, or is non-empty, is not stated.
- `st.rerun()` and `st.stop()`. A script run is `Initialize`, then possibly `NewConversation` or `Submit`. Both handlers end in `st.rerun()`, so the preview (`PreviewOf`, `Locate`, `RenderOutputs`) is computed in the next script run, from the history they left. The early stops are the two notices of `Preview`.
- Reply values of JSON types other than string (numbers, lists, nested objects under `platform`, `slug`, `final_text`, `response` or a `files` entry). `Meta` types these keys as strings, so how Python would format such values is not modelled.
- A truthy `files` value that is not a dict (a list or a string, say). `files.get` at line 156 then raises outside any `try`, and the script stops with a traceback. `Meta.files` is typed as a map, so this case cannot be represented.
- `RenderOutputs` takes one function `get` from URL to `Fetch`, so two slots with the same URL always get the same answer. The script makes a separate request per slot (lines 172, 185, 195, with a 10 s timeout for markdown and 5 s for images), which can answer differently. `HeroFailureIsLocal` requires the hero path to differ from the other two only because of this abstraction.
- How `str(e)` describes an exception. The description is carried as given.
