# API-key checker: configuration and display rules

A Dafny model of the pure rules in `main.py` of a small command-line tool that
checks OpenAI, Anthropic and Gemini API keys by listing each vendor's models:

- **Key masking** (`mask_api_key`): a key of at most 12 characters is shown as
  stars only; a longer key keeps its first and last 4 characters and stars out
  the rest. Module `Masking`.
- **Provider resolution** (`get_provider`): a fixed table maps `openai`,
  `anthropic` and `gemini` to a client kind, an API-key variable and a base-URL
  variable (none for Gemini). Explicit arguments win over the environment with
  Python `or` semantics, so `None` and `""` both count as absent. An unknown name
  and a missing key are errors, each with its own message. The process
  environment is a `map<string, string>` parameter, and the result is a
  `Result` of a `ProviderConfig` (kind, key, optional base URL) or a
  `ConfigError`. Module `Providers`, with `Option`, `Result` and Python's `or`
  in `Wrappers`.
- **Display cells**: the provider panel (display name, masked key, base URL or
  `(default)`) and the model table (id; name or `-`; description cut to 47
  characters plus `...` when longer than 50, or `-` when missing). The rows are
  built by a loop, one row per listed model, in order. Module `Display`.

`main.py` and the provider adapters contain no chat or streaming code, so no
streaming component is modelled. `main.py` only lists models or validates a key.

## Model

| member | source | states |
|---|---|---|
| `Wrappers.Or` | main.py:80-81 | `a or b` on optional strings: the result is truthy exactly when one operand is; it is `a` when `a` is truthy, else `b` unchanged |
| `Masking.Stars` | main.py:27 | `"*" * n` has length `n` and every character is `*` |
| `Masking.MaskApiKey` | main.py:24-28 | same length as the key; at most 12 characters gives all stars; otherwise the first 4 and last 4 characters are the key's and the middle is exactly `len - 8` stars; every position matches the per-position description `IsMaskOf` |
| `Masking.MaskIsUnique` | main.py:24-28 | the per-position description `IsMaskOf` has exactly one solution, the masked key |
| `Masking.ShortKeyRevealsNothing` | main.py:26-27 | two short keys of equal length mask to the same string, so a short key's mask reveals only its length |
| `Masking.MaskAlikeIff` | main.py:24-28 | two keys mask alike if and only if they have the same length and, when longer than 12, the same first 4 and last 4 characters |
| `Masking.MaskIdempotent` | main.py:24-28 | masking a masked key leaves it unchanged |
| `Providers.Getenv` | main.py:80-81 | an environment read is `Some` exactly when the variable is set, and then holds its value |
| `Providers.Lookup` | main.py:56-77 | the table knows exactly `openai`, `anthropic`, `gemini`, each with its fixed kind, key variable and URL variable (none for Gemini) |
| `Providers.GetProvider` | main.py:50-86 | unknown names fail with `UnknownProvider`, and only they do; a known name succeeds if and only if the explicit key or the key variable is non-empty, else fails with `MissingApiKey` naming that variable; on success the kind is the table's, the key is non-empty, the explicit key wins over the environment's, and the base URL is the explicit one, else the URL variable's value, else none (the two `or` fallbacks of main.py:80 and main.py:81 are the helpers `ResolvedKey` and `ResolvedUrl`) |
| `Providers.ErrorMessage` | main.py:74-84 | the unknown-provider text names the provider; the missing-key text names the provider and the key variable to set |
| `Providers.GeminiIgnoresUrlEnv` | main.py:67-81 | for Gemini, environments that agree on `GEMINI_API_KEY` resolve alike, and the base URL is the explicit one or none |
| `Providers.ExplicitArgumentsWin` | main.py:79-81 | with a non-empty explicit key and URL, every environment resolves to the same configuration built from those arguments |
| `Providers.EmptyIsAbsent` | main.py:80-83 | an empty explicit key resolves exactly as an absent key, whatever the base URL argument; an empty explicit base URL resolves exactly as an absent one, whatever the key argument |
| `Providers.OnlyOwnVariablesRead` | main.py:77-81 | without arguments, only the provider's own key and URL variables influence the result |
| `Display.DisplayName` | providers/openai_provider.py:15-17 | the display names are `OpenAI`, `Anthropic` and `Gemini`, each non-empty (the `name` property at lines 15-17 of each of providers/openai_provider.py, providers/anthropic_provider.py and providers/gemini_provider.py) |
| `Display.BaseUrlCell` | main.py:39 | the panel shows the base URL when it is non-empty, otherwise `(default)` |
| `Display.ProviderInfoRows` | main.py:37-39 | the panel has the provider's display name, the masked key and the base-URL cell, in that order |
| `Display.PanelHidesKey` | main.py:37-39 | configurations whose keys agree in length and, when long, in their first and last 4 characters give identical panels |
| `Display.NameCell` | main.py:109 | the name cell is the model's name when it is non-empty, otherwise `-` |
| `Display.DescriptionCell` | main.py:110 | the cell is never empty and never longer than 50; a longer description becomes its first 47 characters plus `...` (length exactly 50); a description of 1 to 50 characters is kept; a missing or empty one is `-` |
| `Display.DescriptionCellIdempotent` | main.py:104-110 | formatting a description cell again leaves it unchanged |
| `Display.DescriptionKeptIff` | main.py:110 | a description is shown unchanged if and only if it has 1 to 50 characters |
| `Display.ModelRows` | main.py:106-111 | one row per model, in the listed order, each the helper `RowOf` of that model (the `add_row` arguments at main.py:107-111): the model's id, its name cell and its description cell, and no description longer than 50 characters |

## Left out

- Chat streaming: `main.py` and the provider adapters contain no chat or streaming code, so there is nothing of it to model.
- Provider adapters (`providers/*.py`): SDK client construction, `list_models` and the mapping of vendor objects into `ModelInfo`, and `validate_key` (a network call that raises or not). `ModelInfo` is kept as a datatype.
- Whether the Gemini client uses a resolved base URL: its adapter never passes one to the SDK. The model keeps the resolved value in `ProviderConfig`, as `get_provider` does.
- Rich rendering: table and panel styling, column layout, the `Total: N models` line, and the error panels. The 50-character limit of the description cell counts characters, as Python's `len` does; rich's `max_width=50` counts terminal cells, so a cell of wide (for example East Asian) characters can still be wider than the column and wrap.
- `argparse`, `load_dotenv`, `os.getenv` and `sys.exit`: the environment is a map parameter and errors are `Err` values. The argument parser accepts only the three known names, so `UnknownProvider` arises only for other callers of `get_provider`.
- The choice in `main` between validating a key and listing models: it only dispatches to I/O.
- Strings are sequences of Unicode scalar values. A Python `str` can also hold lone surrogates, for example when `os.getenv` decodes environment bytes that are not valid UTF-8; the model cannot represent those. For every other string, lengths and slices agree with Python's, since both count code points.
