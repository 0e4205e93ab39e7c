# TgMusicBot utilities: duration formatting and the playback logger

This project models the two pieces of logic in the music bot's utility module
`src/modules/utils/__init__.py`:

- **`sec_to_min`** turns a number of seconds into the `"M:SS"` text the bot
  shows. Minutes are the floor quotient by 60 and are not padded. Seconds are
  the floor remainder, zero-padded to two digits. Anything that raises inside
  the conversion makes the result `None`.
- **`send_logger`** mirrors a "now playing" event into the configured logging
  channel (`LOGGER_ID`). It builds an HTML notification from the track and
  hands it to the messaging client in a single `sendTextMessage` call, with link
  previews and notification sound both disabled. It sends nothing when the chat
  id is missing or 0, when there is no track, when the chat is the logging
  channel itself, or when `LOGGER_ID` is 0.

Modules:

- `Wrappers`: `Option`, standing for Python's `None`.
- `Decimal`: Python's `str(int)`, plus a reader for that text. The reader is
  used to state round trips.
- `TimeFormat`: `sec_to_min`. A duration is `Whole(n)` for an integer, or
  `NonNumeric` for a value on which `//` raises.
- `Notifier`: the track record and the injected configuration. It also holds
  the messaging client, modelled as a class whose `sent` field records every
  message handed to it, plus `send_logger` and its message text.

Python's `//` and `%` by the positive divisor 60 floor, and Dafny's `/` and `%`
give the same results, negative operands included. So, following the code, a
negative count does not fail: -1 gives `"-1:59"`.

The f-string `f"{minutes}"` calls `str` on an int. Since CPython 3.11 (and the
matching security releases), `str` raises `ValueError` for an int of more than
4300 decimal digits. That is the default of `sys.get_int_max_str_digits()`. The
`except` in `sec_to_min` catches it. The model therefore returns `None` exactly
when the minutes need more than `MaxStrDigits` = 4300 digits.
`TimeFormat.SecToMinSucceeds` proves that this happens exactly when
|n / 60| >= 10^4300.

## Model

| member | source | states |
|---|---|---|
| `Decimal.NatToString` | src/modules/utils/__init__.py:33 | The decimal text of a natural number is non-empty and all digits. It starts with '0' only for 0, which is written "0" (no padding zeros). |
| `Decimal.IntToString` | src/modules/utils/__init__.py:33 | `str(n)` starts with '-' exactly when n is negative. After the sign come digits only, with no leading zero: only 0 is written with a '0' first, as "0". |
| `Decimal.IntToStringRoundTrip` | src/modules/utils/__init__.py:33 | Reading back the text `str(n)` writes gives n again, for every integer. |
| `Decimal.NatToStringLength` | src/modules/utils/__init__.py:33 | A number has at most k decimal digits exactly when it is below 10^k. This links the interpreter's digit limit to a bound on the value. |
| `TimeFormat.Pad2` | src/modules/utils/__init__.py:32-33 | `f"{r:02}"` for 0 <= r < 100 is exactly two digits that denote r. The first digit is '0' exactly when r < 10. |
| `TimeFormat.SecToMin` | src/modules/utils/__init__.py:28-36 | The result is `None` exactly for a non-numeric input, or when the minutes exceed the digit limit. Otherwise the result has ':' third from the end, followed by two digits. Those two digits denote n % 60 (between 0 and 59), with a leading '0' exactly when it is below 10. |
| `TimeFormat.SecToMinSucceeds` | src/modules/utils/__init__.py:30-36 | A whole number n of seconds converts exactly when abs(n / 60) < 10^4300. Any smaller count, negative ones included, gives text and not `None`. |
| `TimeFormat.SecToMinRoundTrip` | src/modules/utils/__init__.py:31-33 | Reading the text back gives the minutes n / 60 and the seconds n % 60. These satisfy 60 * minutes + seconds == n, with seconds between 0 and 59. |
| `TimeFormat.SecToMinInjective` | src/modules/utils/__init__.py:31-33 | Two counts that convert to the same text are equal. |
| `TimeFormat.SecToMinMinutesUnpadded` | src/modules/utils/__init__.py:31-33 | The text starts with '-' exactly for a negative count. The minutes are never padded, for every count. A negative count has no '0' right after the sign. A non-negative count with more than one minute digit does not start with '0'. |
| `TimeFormat.SecToMinExamples` | src/modules/utils/__init__.py:28-36 | 125 gives "2:05", 59 gives "0:59", 3600 gives "60:00" and -1 gives "-1:59". A non-numeric value gives `None`. |
| `Notifier.LogMessage` | src/modules/utils/__init__.py:40-51 | A message is produced exactly when the chat id is present and non-zero, a track is present, the chat is not the logging channel, and `LOGGER_ID` is not 0. It is addressed to `LOGGER_ID`, which is then non-zero and differs from the playing chat. Both flags are true, and the text is the now-playing notification for that chat and track. |
| `Notifier.Client.SendTextMessage` | src/modules/utils/__init__.py:51 | The client records exactly one message with the given destination, text and flags after the earlier ones. |
| `Notifier.SendLogger` | src/modules/utils/__init__.py:39-54 | The client's log grows by the message `LogMessage` gives, or not at all, and never by more than one message. If every earlier message went to the logging channel silently and without preview, that still holds afterwards. |
| `Notifier.DurationText` | src/modules/utils/__init__.py:46 | The duration field is the `sec_to_min` text when the conversion succeeds. It reads "None" exactly when the conversion failed; a successful conversion never reads "None", because it has ':' third from the end. |
| `Notifier.NowPlayingText` | src/modules/utils/__init__.py:43-49 | The notification is the f-string piece for piece: the six fixed pieces (including U+25B6 U+FE0F and the U+2022 bullets), each followed by its field. Its length is the sum of those parts. It starts with the "Song Playing" heading and ends with the platform. |
| `Notifier.NowPlayingMentionsTrack` | src/modules/utils/__init__.py:43-49 | The notification text contains these fields one after another, in this order: the chat id, the track URL, the track name, the formatted duration (or "None"), the requester and the platform. |
| `Notifier.NowPlayingNamesChat` | src/modules/utils/__init__.py:44 | The chat id can be read back from the notification text: it is the text between the heading and the next tag. |

## Left out

- `get_audio_duration` (src/modules/utils/__init__.py:56-74) is not modelled. It runs the `ffprobe` subprocess, decodes its JSON output and parses a float. All of that is foreign I/O and floating point. What is left is that any exception gives 0.
- Floating-point durations are left out. `sec_to_min` is modelled for integer seconds only, plus a "non-numeric" value. Other numeric types (`float`, `Decimal`, `Fraction`) are not modelled.
- `TimeFormat.MaxStrDigits` is fixed at CPython's default of 4300. The model does not cover a limit changed through `PYTHONINTMAXSTRDIGITS` or `sys.set_int_max_str_digits`, or interpreters without the limit (before 3.11 and its backported security releases 3.10.7, 3.9.14, 3.8.14 and 3.7.14).
- `Notifier.NowPlayingText`: `str(chat_id)` in `send_logger` is outside any `try`, so a chat id of more than 4300 digits would raise there. The model writes chat ids of any size.
- `Config` holds `LOGGER_ID` as an int. A string setting is not modelled: the `== 0` test would not read `"0"` or `""` as disabled, and an int chat id would never equal it.
- `chat_id` is modelled as an optional integer, and `not chat_id` as "absent or 0". Chat ids of other types, such as strings, are not modelled. The track is modelled as present or absent; a track object that is falsy although present is not modelled.
- The result of `sendTextMessage` and the `types.Error` check are not modelled. An error is only logged and changes no state.
- `LOGGER.warning` and `LOGGER.error` output, the asyncio scheduling, and the imported filter and button classes are not modelled.
- HTML escaping: the code does not escape the track's name or URL, and no well-formedness of the HTML is claimed.
