# NAVS13 in Dafny

A model of `avs_cli`, a command-line tool that creates and validates Swiss social-insurance
numbers with thirteen digits (NAVS13, written `756.DDDD.DDDD.DC`). The first three digits are the
ISO 3166-1 numeric code of Switzerland (756). The next nine identify the person. The last digit is
an EAN-13 check digit over the first twelve.

Two modules, one per concern of `src/main.rs`:

- `Ean13` (`ean13.dfy`) models `ean13_check`. `Check` and `WeightedSum` define the check digit:
  weight 1 at even positions, 3 at odd positions, and the digit that brings the sum to a multiple
  of ten. `ComputeCheck` is the loop of the source over an `array` of twelve bytes. Its running sum
  is typed `U16`, Rust's `u16`, and the proof shows that it never overflows (the sum is at most
  3 · 255 · 12). Lemmas prove that the check digit is unique, that it catches every single-digit
  error, and that the unit tests' expected digits are correct.
- `Navs13` (`navs13.dfy`) models the `Nav13` value, `from_str`, `Display` and
  `create_fake_swiss_navs13`:
  - `Parse` extracts the digits of the text (`Digits`), then applies the source's tests in
    order: length (code 64), country (code 65) and checksum (code 66). It copies the digits into
    a blank number whose entries start as 255 (`ZipCopy`), just as the source does.
  - `Format` is `Display`, with every `u8` written in decimal.
  - `CreateFakeSwissNavs13` fills an `array` with 7, 5, 6 and nine drawn digits, then calls
    `ComputeCheck`.
  - The main properties are the round trip (`FormatThenParse`) and the canonical form of parsed
    text (`ParseThenFormat`). Inserting an ASCII character that is not a digit anywhere leaves
    `Parse` unchanged. A change to one of the nine free digits (after the prefix) or a wrong check
    digit is rejected with code 66. Every generated number formats to
    text that both the as-written parser and the corrected parser accept.
  - The unit tests of `src/main.rs` are restated as lemmas.

The country test is modelled as the code writes it: `values[0]!=7 && values[1]!=5 && values[2]!=6`
(`CountryRejected`). That rejects a prefix only when all three digits differ from 7, 5 and 6. The
tool's own message says it refuses any prefix that is not the code of Switzerland. The model
follows the code, and the discrepancy is reported under "## Findings". `ParseSwiss` is the
corrected parser; it refuses every prefix other than 756.

## Model

| member | source | states |
|---|---|---|
| `Ean13.Weight` | src/main.rs:116-120 | The weight is 1 at even positions and 3 at odd ones. Both weights are odd and not multiples of 5, so they are coprime with ten. |
| `Ean13.Check` | src/main.rs:110-127 | The check digit is a digit 0..9. Added to the weighted sum (weights 1, 3, 1, 3, ...), it gives a multiple of ten. It is 0 exactly when the sum already is a multiple of ten. |
| `Ean13.CheckIsUnique` | src/main.rs:123-126 | A digit completes the weighted sum to a multiple of ten if and only if it is `Check`'s digit. |
| `Ean13.WeightedSumBound` | src/main.rs:112-122 | The weighted sum of n bytes lies between 0 and 3 · 255 · n, so twelve bytes fit the `u16` accumulator. |
| `Ean13.WeightedSumUpdate` | src/main.rs:114-122 | Replacing one digit moves the weighted sum by the difference times that position's weight. |
| `Ean13.DetectsSingleDigitError` | src/main.rs:110-127 | Changing any one decimal digit of the payload to another decimal digit changes the check digit. |
| `Ean13.WeightedSumOfTwelve` | src/main.rs:114-122 | For twelve digits, the weighted sum is d0 + 3·d1 + d2 + 3·d3 + ... + 3·d11. |
| `Ean13.KnownCheckDigits` | src/main.rs:203-222 | The unit tests' payloads have check digits 7, 0 and 9. |
| `Ean13.ComputeCheck` | src/main.rs:110-127 | The loop over the twelve-byte array, with a `u16` accumulator that never overflows, returns `Check` of the array's contents. |
| `Navs13.ParseError.Code` | src/main.rs:77-104 | A length error has code 64, a country error 65 and a checksum error 66. The codes are exclusive. |
| `Navs13.CountryRejected` | src/main.rs:85 | The test as written: a prefix it rejects is never 7, 5, 6, and one leading digit that matches 7, 5 or 6 in its place is enough to pass. |
| `Navs13.Keep` | src/main.rs:70-74 | One character yields at most one value. It yields one exactly when the character is a digit, and that value is a decimal digit that writes back as the same character. |
| `Navs13.Digits` | src/main.rs:69-75 | Extraction yields decimal digits only, and no more values than there are characters. |
| `Navs13.ZipCopy` | src/main.rs:95 | The copy keeps the destination's length. Position k takes the source's value where the source reaches and keeps the destination's value elsewhere. |
| `Navs13.Blank` | src/main.rs:64-67 | The starting value has twelve payload entries, and every entry and the check are the sentinel 255, which is not a decimal digit. |
| `Navs13.CopyInto` | src/main.rs:94-95 | After the copy, the payload is the first twelve values and the check is the thirteenth. Together they are exactly the thirteen values. |
| `Navs13.Validate` | src/main.rs:97-105 | The number is returned unchanged exactly when its check digit equals `Check` of its payload. Otherwise the error is code 66 and carries the claimed check digit. |
| `Navs13.ParseValues` | src/main.rs:77-105 | The tests run in order. A count other than 13 fails with code 64 and that count. A rejected prefix fails with 65 and the three leading digits. A wrong last digit fails with 66 and the claimed digit. Otherwise the result is the number made of the first twelve digits and the last one; it is accepted and holds exactly those thirteen digits. |
| `Navs13.Parse` | src/main.rs:63-106 | A number parsed from text is accepted (decimal digits, prefix passing the country test, matching check digit). Its thirteen digits are those of the text, in order. |
| `Navs13.ParseValuesSwiss` | src/main.rs:77-105 | The corrected tests run in the same order. A count other than 13 fails with code 64. Any 13 digits whose prefix is not 756 fail with code 65 and the three leading digits, whatever the check digit. Otherwise the result is the as-written one, so the corrected tests accept exactly what the written tests accept with prefix 756. |
| `Navs13.ParseSwiss` | src/main.rs:85-92 | A number that the corrected parser accepts is the same one that `Parse` accepts, and it starts 7, 5, 6. |
| `Navs13.Decimal` | src/main.rs:26-39 | `{}` of a `u8` writes one to three decimal digits that denote the value in base ten, with no leading zero except for 0 itself. It writes exactly one digit when the value is below 10. |
| `Navs13.Format` | src/main.rs:24-42 | The display has between 16 and 42 characters, and exactly 16 when all thirteen values are decimal digits. Its layout `DDD.DDDD.DDDD.DC` is stated by `FormatLayout` and its digits by `DigitsOfFormat`. |
| `Navs13.CreateFakeSwissNavs13` | src/main.rs:130-150 | The payload is 7, 5, 6 followed by the nine draws. The check digit is `Check` of the payload, so the number is accepted. Its display is ASCII and both parsers read it back as the same number. |
| `Navs13.DigitsAppend` | src/main.rs:69-75 | Extracting digits from concatenated text gives the concatenation of the digits, in order. |
| `Navs13.ParseIgnoresNonDigit` | src/main.rs:69-75 | Inserting a non-digit ASCII character anywhere does not change the result of parsing. |
| `Navs13.FormatLayout` | src/main.rs:24-42 | For a number of decimal digits, the display has sixteen characters in the layout `DDD.DDDD.DDDD.DC`. |
| `Navs13.DigitsOfFormat` | src/main.rs:24-42 | The display is ASCII, and the digits read back from it are the number's thirteen digits. |
| `Navs13.ParseValuesOfNumber` | src/main.rs:77-105 | The tests accept the thirteen digits of every accepted number and give that number back. |
| `Navs13.FormatThenParse` | src/main.rs:24-106 | Round trip: every accepted number parses back from its display unchanged. |
| `Navs13.ParseThenFormat` | src/main.rs:24-106 | A number parsed from text displays as text with the same digits. That display parses to the same number. |
| `Navs13.FormatThenParseSwiss` | src/main.rs:24-106 | An accepted number with prefix 756 parses back from its display unchanged under both parsers. |
| `Navs13.OtherCheckDigitRejected` | src/main.rs:96-104 | Replacing the check digit of an accepted number by any other digit makes parsing fail with code 66 and the new digit. |
| `Navs13.ChangedDigitRejected` | src/main.rs:96-104 | Changing one of the nine free digits of an accepted number makes parsing fail with code 66. |
| `Navs13.ForeignPrefixAccepted` | src/main.rs:85 | "156.2465.8935.60" is accepted by the as-written parser and refused with code 65 by the corrected one. |
| `Navs13.KnownParseOk` | src/main.rs:224-228 | "756.2465.8935.64" parses to the number 756.2465.8935.6 with check digit 4. |
| `Navs13.KnownParseTooShort` | src/main.rs:230-237 | "756.246.8935.64" fails with 12 digits found, code 64. |
| `Navs13.KnownParseTooLong` | src/main.rs:239-246 | "756.246.8935.64789" fails with 15 digits found, code 64. |
| `Navs13.KnownParseWrongCountry` | src/main.rs:248-255 | "471.9512.0028.88" fails the country test with prefix 4, 7, 1, code 65. |
| `Navs13.KnownParseWrongCheck` | src/main.rs:257-264 | "756.2465.8935.65" fails with claimed check digit 5, code 66. |

## Left out

- The command line (`Cli`, `main`, src/main.rs:151-196): argument parsing, printing and the process exit code are I/O. The exit code is the error's `Code`.
- `thread_rng` and `gen_range(0..10)`: the generator takes the nine drawn values as its `draws` parameter, each in 0..9.
- The `description` strings of `ParseNav13Error`: the errors carry the data the descriptions print (the digit count, the three leading digits, the claimed check digit), not the text.
- `From<String>` (src/main.rs:45-50): it is `from_str` followed by a panic on error, and the panic is not modelled.
- Navs13.Parse: requires ASCII text, so it says nothing about any non-ASCII character. `from_str` skips non-ASCII characters that are not numeric, just as the model skips ASCII non-digits. It panics in `to_digit(c, 10).unwrap()` on non-ASCII numeric characters. Unicode character tables are not modelled.
- Update in place of the `nav13` record in `from_str` is modelled on values (`CopyInto`, `ZipCopy`), because the struct is local and not shared.

## Findings

| source | as written | input that shows it | evidently intended | confidence | as-written member | corrected member |
|---|---|---|---|---|---|---|
| src/main.rs:85 | `values[0]!=7 && values[1]!=5 && values[2]!=6` rejects a prefix only when all three digits differ from 7, 5, 6 | "156.2465.8935.60" (prefix 156, valid EAN-13 check digit 0) is accepted | reject every prefix other than 756, as the message "isn't iso-3166 for Switzerland" says | not executed | `Navs13.ForeignPrefixAccepted` | `Navs13.ParseValuesSwiss` |
