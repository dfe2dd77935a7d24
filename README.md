# Excel plugin of dbt-duckdb, modelled in Dafny

This project models the Excel source/sink plugin of the DuckDB adapter for dbt
(`dbt/adapters/duckdb/plugins/excel.py`). The plugin has three jobs:

- **initialize** stores the plugin configuration. It checks that an `output`
  entry, if present, is a mapping that names a `file`. It then copies the
  optional `s3_access_key_id`, `s3_secret_access_key` and `s3_region` settings
  into the environment variables `AWS_ACCESS_KEY_ID`, `AWS_SECRET_ACCESS_KEY`
  and `AWS_DEFAULT_REGION`.
- **load** resolves a source's `external_location`. A location that mentions
  `s3` anywhere is passed through verbatim. Any other location is a local path
  with every leading and trailing `'` removed. The sheet to read is
  `sheet_name`, or the first sheet (index 0).
- **store** opens one shared workbook writer on its first call, using the
  `output` settings and their defaults. At that moment only, it switches the
  library-wide default header style off if `header_styling` equals `False`.
  Every call merges the per-call `overrides` over `output`, defaults the sheet
  name to the relation identifier, and writes one sheet with the fixed
  defaults for the remaining options. **Teardown** (the finalizer) closes the
  writer and logs the output file, but only if a writer was created.

Files:

- `py_values.dfy` (module `PyValues`): configuration values (None, bool, int,
  float, str, nested mappings), Python's `== False`, `dict.get`, and the
  exceptions the plugin raises.
- `py_strings.dfy` (module `PyStrings`): Python's `sub in s` and
  `s.strip(c)`, with a declarative characterisation of `strip`.
- `excel_plugin.dfy` (module `ExcelPlugin`): location resolution and `Load`,
  the option merge and defaults, and the state-step functions
  `InitializeStep`, `StoreStep` and `TeardownStep` on a `State` value. It also
  holds lemmas about runs of stores, and the class `Plugin`, whose fields are
  updated in place by `Initialize`, `Store` and `Teardown`. Each method's
  postcondition says its new state and outcome are exactly those of the
  matching step function.

The spreadsheet library is opaque:

- a read is the `ReadCall` (location, sheet) handed to the reader;
- a writer is the parameters it was opened with;
- each write is a `SheetWrite` record appended to `sheets`.

The process environment and the formatter's class-level header style are
process-wide in the source. Here they are the fields `env` and `headerStyled`.

Notes on the code's behaviour:

- `strip("'")` removes every leading and trailing quote, not just one enclosing
  pair (`RepeatedQuotes`).
- The configuration is stored before it is checked (excel.py:18), so a failed
  `initialize` still replaces it.
- Teardown looks up `output.file` for its log line before closing. If that
  lookup fails (the plugin was re-initialized without `output`), the writer is
  not closed.
- `header_styling` is compared with Python's `==`, so `0` and `0.0` switch the
  style off as well as `False` (`PyValues.EqualsFalse`).
- Assigning a non-string to `os.environ` raises `TypeError`. Exports before
  the failing one stay in place.

## Model

| member | source | states |
|---|---|---|
| `PyStrings.LStrip` | dbt/adapters/duckdb/plugins/excel.py:40 | the result is a suffix of the input; everything dropped is the quote character; the result does not start with it |
| `PyStrings.RStrip` | dbt/adapters/duckdb/plugins/excel.py:40 | the result is a prefix of the input; everything dropped is the quote character; the result does not end with it |
| `PyStrings.Strip` | dbt/adapters/duckdb/plugins/excel.py:40 | `strip("'")` returns a slice of the input that is surrounded only by quotes and neither starts nor ends with one |
| `PyStrings.StripsToUnique` | dbt/adapters/duckdb/plugins/excel.py:40 | that description of a strip fixes the result uniquely |
| `PyStrings.StripCharacterized` | dbt/adapters/duckdb/plugins/excel.py:40 | a string is a strip of `s` if and only if it is what `Strip` returns |
| `PyStrings.StripIdempotent` | dbt/adapters/duckdb/plugins/excel.py:40 | stripping an already stripped location changes nothing |
| `PyStrings.StripUnquoted` | dbt/adapters/duckdb/plugins/excel.py:40 | a location neither starting nor ending with a quote is left unchanged |
| `ExcelPlugin.ResolveLocation` | dbt/adapters/duckdb/plugins/excel.py:36-40 | the location is remote if and only if it contains "s3"; a remote one is verbatim; a local one is the quote-strip of the input |
| `ExcelPlugin.Load` | dbt/adapters/duckdb/plugins/excel.py:33-41 | a missing `external_location` raises KeyError; a non-string one raises AttributeError; otherwise the read goes to the resolved formatted location; the sheet is `sheet_name` if present, else 0 |
| `ExcelPlugin.QuotedLocalPath` | dbt/adapters/duckdb/plugins/excel.py:36-40 | `'./f.xlsx'` resolves to the local path `./f.xlsx` |
| `ExcelPlugin.RepeatedQuotes` | dbt/adapters/duckdb/plugins/excel.py:40 | `''./f.xlsx''` also resolves to `./f.xlsx`: every enclosing quote goes |
| `ExcelPlugin.S3PassThrough` | dbt/adapters/duckdb/plugins/excel.py:36-38 | an s3 URI is kept verbatim, and so is a quoted local path containing "s3", quotes included |
| `ExcelPlugin.PlainLocalPath` | dbt/adapters/duckdb/plugins/excel.py:36-40 | an unquoted local path without "s3" is used as it is |
| `ExcelPlugin.FirstSheetByDefault` | dbt/adapters/duckdb/plugins/excel.py:41 | with no `sheet_name`, load reads sheet 0 |
| `ExcelPlugin.ExportOne` | dbt/adapters/duckdb/plugins/excel.py:25-26 | a configured string key sets its variable; an absent key leaves it as it was; a non-string raises TypeError and changes nothing; no other variable changes |
| `ExcelPlugin.ExportCredentials` | dbt/adapters/duckdb/plugins/excel.py:24-30 | succeeds exactly when every present credential key holds a string; then each of the three variables equals its key's value when the key is present and is unchanged otherwise; no other variable ever changes |
| `ExcelPlugin.InitializeStep` | dbt/adapters/duckdb/plugins/excel.py:17-30 | the config is stored whatever happens; AssertionError exactly when `output` is present but not a mapping with `file`, and then the environment is untouched; success exactly when the config is valid and the credentials are strings, with the export property; writer, sheets and log are untouched |
| `ExcelPlugin.NewWriter` | dbt/adapters/duckdb/plugins/excel.py:53-60 | the writer takes `file`, plus `mode`, `engine`, `engine_kwargs`, `date_format` and `datetime_format`; when absent these default to "w", "xlsxwriter", {}, None and None |
| `ExcelPlugin.Merge` | dbt/adapters/duckdb/plugins/excel.py:64 | the merged keys are the union; override values win on shared keys; base-only keys keep their value |
| `ExcelPlugin.SheetFor` | dbt/adapters/duckdb/plugins/excel.py:65-77 | the sheet name is the effective `sheet_name`, else the relation identifier; `na_rep`, `float_format`, `header`, `index`, `merge_cells` and `inf_rep` default to "", None, True, True, True and "inf" |
| `ExcelPlugin.OverridesWin` | dbt/adapters/duckdb/plugins/excel.py:64-77 | each written option comes from the overrides if set there, else from `output`, else its default; the sheet name falls back to the relation identifier |
| `ExcelPlugin.Fresh` | dbt/adapters/duckdb/plugins/excel.py:16 | a new plugin object satisfies the state invariant |
| `ExcelPlugin.StoreStep` | dbt/adapters/duckdb/plugins/excel.py:45-78 | an existing writer is reused and header styling is not re-examined; a writer only appears if built from `output`, and styling is switched off at that point when `header_styling == False`; success exactly when initialized, `output` is a mapping (naming `file` if no writer yet) and overrides are a mapping; a success appends exactly the merged, defaulted sheet; a failure appends nothing; config, environment and log are untouched; the invariant is kept |
| `ExcelPlugin.TeardownStep` | dbt/adapters/duckdb/plugins/excel.py:81-84 | with no writer nothing is closed or logged; with a writer and a resolvable `output.file` the writer is closed and that file logged once; if the lookup fails the writer stays open; the invariant is kept |
| `ExcelPlugin.StoreAll` | dbt/adapters/duckdb/plugins/excel.py:45-78 | a run of stores keeps config, environment and log, only appends sheets, and keeps the invariant |
| `ExcelPlugin.WriterCreatedAtMostOnce` | dbt/adapters/duckdb/plugins/excel.py:52-60 | over any run of stores an existing writer is never replaced; a writer that appears is the one `output` describes; with `output.file` configured the first store creates it |
| `ExcelPlugin.HeaderStylingDecidedAtCreation` | dbt/adapters/duckdb/plugins/excel.py:61-62 | the style is never switched back on and is not changed once a writer exists; every sheet of a writer created with `header_styling == False` is written without the default header style |
| `ExcelPlugin.Lifecycle` | dbt/adapters/duckdb/plugins/excel.py:17-84 | initialize, then any stores, then teardown: with no store nothing is closed or logged; with at least one, the single writer built from `output` is closed and its file logged exactly once |
| `ExcelPlugin.Plugin.constructor` | dbt/adapters/duckdb/plugins/excel.py:16 | a new object holds no configuration and no writer, and keeps the given environment and header style |
| `ExcelPlugin.Plugin.Initialize` | dbt/adapters/duckdb/plugins/excel.py:17-30 | updates the object in place to exactly the state and outcome of `InitializeStep` |
| `ExcelPlugin.Plugin.Store` | dbt/adapters/duckdb/plugins/excel.py:45-78 | updates the object in place to exactly the state and outcome of `StoreStep` |
| `ExcelPlugin.Plugin.Teardown` | dbt/adapters/duckdb/plugins/excel.py:81-84 | updates the object in place to exactly the state and outcome of `TeardownStep` |

## Left out

- The library calls `pd.read_excel`, `pd.ExcelWriter`, `DataFrame.to_excel`, `ExcelWriter.close` and `pd_utils.target_to_df` are opaque. Reads, writers and sheet writes are records of their arguments. Failures raised inside the library are not modelled (missing files, engine errors, sheet-name collisions).
- `str.format(**source_config.as_dict())` is the parameter `format` of `Load`. The format mini-language and its own errors are not modelled. `SourceConfig`, `TargetConfig` and `as_dict` are not part of this model: a source is a map of its fields, and a target is its identifier, config map and data.
- `pathlib.Path` normalisation of a local path is not modelled; the path stays a string.
- The real process environment and the formatter's class attribute are fields of the object, not global state shared with other objects in the process. The initial environment and header style are constructor parameters.
- Garbage-collection timing of `__del__` is not modelled. Teardown is an explicit call. After it the object counts as finalized, and `Initialize`, `Store` and `Teardown` may not be called again.
- The log line is recorded as the `output.file` value it names, not as formatted text.
- `os.environ` rejecting strings that contain a NUL character is not modelled.
- Python lists, tuples and other value kinds are not among the configuration values. Floats are exact reals.
- ExportCredentials: when an export raises, the contract states only that no other variable changed and the error is TypeError. Which earlier exports stayed in place is fixed by the definition, not by a separate postcondition.
