# shrpx configuration, modelled in Dafny

This project models the configuration core of the shrpx SPDY/HTTPS reverse
proxy (`shrpx_config.cc`). The proxy keeps one process-wide configuration
record. Options reach it one at a time, from the command line or from
`name=value` lines of a configuration file. `parse_config` validates each
option and stores it. `load_config` feeds a file's lines to `parse_config`.

Two files, verified together:

- `clib.dfy` (module `CLib`) covers the C library and utility functions the
  core relies on:
  - the view of a buffer as a NUL-terminated string (`CStr`);
  - `strchr` (`FirstIndex`);
  - `util::strieq` (`StrIEq`, ASCII case folding);
  - `strtoul` and `strtol` with base 10, as glibc performs them on an LP64
    platform (`StrToUL`, `StrToL`). Leading white space and one sign are
    skipped, the longest digit run is read, and overflow sets the range-error
    flag. `strtoul` negates a negative number in unsigned arithmetic.
  - a decimal rendering (`Decimal`), the inverse of the digit reading, used
    for the round-trip lemmas.
- `shrpx_config.dfy` (module `ShrpxConfig`) holds the record and its
  operations:
  - The value of the record is `ConfigValue`. Its fields are grouped: the
    frontend and backend host/port pairs, the yes/no switches, the timeouts,
    the file names, and the fields no option sets.
  - `Config` is the record as an object that is updated in place. Its fields
    are those groups, and `Value()` is its snapshot.
  - `HostPortOf` is the outcome of `split_host_port`. `SplitHostPort` is the
    method that copies the host into the caller's buffer.
  - `ParseOption` (with `Resolve` and `ApplyOption`) specifies
    `parse_config`. `Config.ParseConfig` performs it.
  - `LoadLines` specifies `load_config` over the classified lines of a file.
    `Config.LoadConfig` performs it with the source's loop and its
    character-by-character scan for `=` (`FindSeparator`).

The collaborators the core calls but does not contain are one `Platform`
parameter:

- the host buffer size `NI_MAXHOST`;
- whether `Log::set_severity_level_by_name` accepts a name;
- the `getpwnam` account lookup.

Two properties hold across operations:

- `WellFormed`: every host/port pair is unset or holds a host without a comma
  and a port in 1..65535, and the window bits are at most 30.
- Each option writes only its own fields (`ApplyOptionFrame`).

Parsing and loading preserve `WellFormed` on success and on failure.

## Model

| member | source | states |
|---|---|---|
| CLib.CStr | examples/shrpx_config.cc:257-259 | a buffer seen as a C string is its longest NUL-free prefix: NUL-free, a prefix, and stopped by a NUL when shorter |
| CLib.FirstIndex | examples/shrpx_config.cc:116-117 | strchr finds nothing exactly when the character is absent; otherwise the index holds the character and no earlier index does |
| CLib.StrIEq | examples/shrpx_config.cc:153-227 | util::strieq, used for every option name and for the "yes" of line 177: a match needs equal lengths, and every string matches itself |
| CLib.StrIEqPointwise | examples/shrpx_config.cc:153-227 | strieq holds exactly when the lengths agree and each position agrees once both characters are folded to lower case |
| CLib.Read | examples/shrpx_config.cc:130 | what strtoul and strtol read (lines 130, 168, 204): a negative sign only when the text holds a '-', and a non-zero magnitude only when it holds a digit |
| CLib.StrToUL | examples/shrpx_config.cc:129-131 | the converted value lies in 0..ULONG_MAX; a range error is reported exactly when the digits exceed ULONG_MAX, and the value is then ULONG_MAX |
| CLib.StrToL | examples/shrpx_config.cc:168 | the converted value lies in LONG_MIN..LONG_MAX and, without a range error, is the signed number read |
| CLib.StrToULOfDecimal | examples/shrpx_config.cc:129-131 | a decimal number up to ULONG_MAX, followed by any text not starting with a digit, converts back to that number without error |
| CLib.StrToLOfDecimal | examples/shrpx_config.cc:168 | a decimal number up to LONG_MAX, followed by a non-digit, converts back to that number without error |
| CLib.StrToULWithoutDigits | examples/shrpx_config.cc:203-206 | text without any digit (the empty value included) converts to 0 without error, so window bits take 0 from it |
| ShrpxConfig.HostPortOf | examples/shrpx_config.cc:112-138 | no comma exactly when the token holds none; too long exactly when the host before the first comma and its NUL exceed the buffer; otherwise the host is the comma-free prefix before the first comma, and the split succeeds exactly when the text after it converts without error to 1..65535, which becomes the port |
| ShrpxConfig.HostPortOfSplit | examples/shrpx_config.cc:115-131 | a token is judged only by the text before its first comma and the text after it |
| ShrpxConfig.HostPortRoundTrip | examples/shrpx_config.cc:112-138 | a fitting host without a comma, joined by a comma to the decimal rendering of a port in 1..65535, splits back into that host and port |
| ShrpxConfig.SplitHostPort | examples/shrpx_config.cc:112-138 | returns 0 exactly on a successful split, with the parsed port, else -1 with the port untouched; once the host fits, the buffer starts with the host and a NUL and is otherwise unchanged; without a comma or when too long, the buffer is untouched |
| ShrpxConfig.CStrOfTerminated | examples/shrpx_config.cc:126-127 | the host buffer, read as a C string (as the strdup of line 146 does when line 157 passes the buffer to set_config_str), gives back exactly the copied host |
| ShrpxConfig.WithString | examples/shrpx_config.cc:141-147 | the effect of set_config_str on the record: the chosen string field holds the new value, and the ports, numbers, window bits, switches, timeouts, uid and gid are unchanged |
| ShrpxConfig.WithStringLaws | examples/shrpx_config.cc:141-147 | replacing a string field stores the new value, leaves every other string field unchanged, is undone by restoring the old value, and a second replacement overrides the first |
| ShrpxConfig.FirstMatch | examples/shrpx_config.cc:153-227 | the chain of strieq tests picks an option whose name matches ignoring case |
| ShrpxConfig.Resolve | examples/shrpx_config.cc:153-231 | a recognised option's name matches the given name ignoring case |
| ShrpxConfig.ResolveMatches | examples/shrpx_config.cc:153-227 | a name selects an option exactly when it equals that option's name ignoring case |
| ShrpxConfig.ResolveUnknown | examples/shrpx_config.cc:229-231 | a name selects no option exactly when it matches none of the registered names |
| ShrpxConfig.ResolveIsFirstMatch | examples/shrpx_config.cc:153-231 | the lookup agrees with testing the names one after another in the order parse_config tests them |
| ShrpxConfig.SpellingKey | examples/shrpx_config.cc:153-227 | every option name starts with a lower-case letter, and its length and first letter identify it |
| ShrpxConfig.ApplyOption | examples/shrpx_config.cc:153-232 | for each option, the record with only that option's field or pair replaced, or None where parse_config returns -1; only backend, frontend, log-level, frontend-spdy-window-bits and user can fail |
| ShrpxConfig.ParseOption | examples/shrpx_config.cc:149-234 | parse_config on a record: it succeeds only for a name that matches some option ignoring case, with the record that option's branch gives |
| ShrpxConfig.ApplyOptionFrame | examples/shrpx_config.cc:149-234 | each option writes only its own fields: the host/port pairs, window bits, worker count, stream limit, uid and gid are changed only by their own option; the switches, timeouts and file names change only in the member of the option given; the fields no option sets are never touched |
| ShrpxConfig.WindowBitsOption | examples/shrpx_config.cc:202-211 | frontend-spdy-window-bits succeeds exactly when strtoul reports no error and a value of at most 30, which is stored; otherwise it fails and changes nothing |
| ShrpxConfig.WindowBitsDecimal | examples/shrpx_config.cc:202-211 | any natural number written in decimal is stored as the window bits when it is at most 30 and rejected otherwise, a value beyond ULONG_MAX by the range error |
| ShrpxConfig.BooleanOptions | examples/shrpx_config.cc:176-198 | daemon, spdy-proxy, add-x-forwarded-for and accesslog never fail; the flag becomes true exactly when the value is "yes" in any case, and nothing else changes |
| ShrpxConfig.BindingOptions | examples/shrpx_config.cc:153-166 | backend and frontend fail and change nothing unless the split succeeds; a successful split sets that pair's host and port and nothing else |
| ShrpxConfig.UnknownAndConf | examples/shrpx_config.cc:227-231 | an unknown name fails; conf succeeds and changes nothing |
| ShrpxConfig.FileOptions | examples/shrpx_config.cc:212-226 | pid-file, private-key-file and certificate-file always succeed and store the value in their own file name only |
| ShrpxConfig.FileOptionTwice | examples/shrpx_config.cc:212-213 | giving pid-file twice leaves the record as giving only the second value |
| ShrpxConfig.ParseOptionKeepsWellFormed | examples/shrpx_config.cc:149-234 | a successful option keeps the record well formed |
| ShrpxConfig.OptionParserKeepsWellFormed | examples/shrpx_config.cc:149-234 | parse_config as the loader's handler keeps the record well formed |
| ShrpxConfig.ClassifyLine | examples/shrpx_config.cc:247-258 | a line is skipped exactly when empty or starting with '#', malformed exactly when otherwise without '='; otherwise it splits at its first '=' into name and value, each read as a C string |
| ShrpxConfig.LoadLines | examples/shrpx_config.cc:243-263 | load returns 0 or -1; on success the counter has passed every line; on failure it names a line of the file |
| ShrpxConfig.LoadSkippedOnly | examples/shrpx_config.cc:245-249 | blank and comment lines load, change nothing, and are counted |
| ShrpxConfig.LoadStopsAtFailure | examples/shrpx_config.cc:253-261 | once a line fails, the lines after it have no effect on the result |
| ShrpxConfig.LoadSequential | examples/shrpx_config.cc:245-263 | lines that all load carry their record and line count into the lines that follow |
| ShrpxConfig.LoadFailure | examples/shrpx_config.cc:245-261 | a failed load stops at a malformed or rejected line, with the line counter standing at that line's 1-based number, and keeps the record the lines before it built, all of which loaded |
| ShrpxConfig.LoadMalformedLine | examples/shrpx_config.cc:250-256 | a line without '=' after lines that loaded fails the load, with the line counter at its own 1-based number (the number line 254 prints), and keeps the earlier effects |
| ShrpxConfig.LoadKeepsWellFormed | examples/shrpx_config.cc:243-263 | loading keeps the record well formed, whether it succeeds or stops |
| ShrpxConfig.FindSeparator | examples/shrpx_config.cc:250-253 | the scan stops at the first '=' or, when there is none, at the end of the line |
| ShrpxConfig.Config.constructor | examples/shrpx_config.cc:67-90 | every flag false, every string unset, every number 0; the new record is well formed |
| ShrpxConfig.Config.SetConfigStr | examples/shrpx_config.cc:141-147 | the field holds a copy of the value, whatever it held before, and nothing else changes |
| ShrpxConfig.Config.SplitInto | examples/shrpx_config.cc:151-165 | the split of the token into a fresh host buffer either stores the host through set_config_str and returns the port, or fails and changes nothing |
| ShrpxConfig.Config.ParseConfig | examples/shrpx_config.cc:149-234 | returns 0 with the record ParseOption gives, or -1 with the record unchanged |
| ShrpxConfig.Config.Apply | examples/shrpx_config.cc:153-232 | the branch for one option leaves the record ApplyOption gives, or fails with it unchanged |
| ShrpxConfig.Config.ApplyHostPort | examples/shrpx_config.cc:153-166 | backend or frontend set that pair's host and port on a successful split, and change nothing otherwise |
| ShrpxConfig.Config.ApplySwitch | examples/shrpx_config.cc:176-198 | the option's flag takes the given value, and nothing else changes |
| ShrpxConfig.Config.ApplyTimeout | examples/shrpx_config.cc:182-201 | the option's timeout takes the given value, and nothing else changes |
| ShrpxConfig.Config.ApplyFile | examples/shrpx_config.cc:212-226 | the option's file name takes a copy of the value, and nothing else changes |
| ShrpxConfig.Config.LoadConfig | examples/shrpx_config.cc:236-264 | the result, the final line counter and the record are those LoadLines specifies for the classified lines |

## Left out

- Opening the file (lines 238-242): `Config.LoadConfig` takes the file's lines already read. Failing to open it returns -1 and is not modelled.
- `std::getline`: splitting the file into lines is not modelled, and a `\r` stays part of a line as in the source.
- `load_config` returns only 0 or -1. `Config.LoadConfig` also returns its line counter, an added output the source only prints for a line without '=' (line 254).
- HostPortOf and SplitHostPort: every text in the model is a sequence of `char`, each standing for one byte of the C string. The source counts bytes, for example the host length `p-hostport` checked against the buffer size at lines 121-122. A non-ASCII character takes several bytes in a UTF-8 file but one `char` here, so the model's length tests hold for text given one byte per `char`. They do not count encoded bytes. The character tests (`Lower`, `IsSpace`, `IsDigit`) act only on ASCII, so nothing else depends on the encoding.
- The diagnostics written to `std::cerr` are not modelled. They do not affect results.
- `Log::set_severity_level_by_name` changes the logging module's state. Only whether it accepts the name is modelled, as `Platform.isSeverityName`.
- `getpwnam` is the oracle `Platform.getpwnam`. Its use of `errno` in the message is left out.
- `NI_MAXHOST` is `Platform.hostBufferLength`. The system headers that define it are not part of this model.
- `shrpx_config.h` is not part of this model. The declared widths of `num_worker`, `spdy_max_concurrent_streams` and the timeval fields are not known here.
- Config.Apply: stores the `long` result of `strtol` as is, without the narrowing a narrower field type would apply.
- CLib.StrToUL and CLib.StrToL: assume LP64 widths (64-bit `long`), and assume `errno` holds no range error other than the one the conversion reports.
- `free` and `strdup`: memory ownership is not modelled. `Config.SetConfigStr` stores a copy of the value.
- `get_config`, `mod_config` and `create_config` (lines 93-109) are one `Config` object whose constructor is `create_config`. The null pointer before `create_config` runs is not modelled.
- Config.constructor: the six timeouts are not initialised by the source, so the contract says nothing about them.
- The record's fields are grouped into sub-records. This changes nothing about which values are stored.
