# Random object generator and classifier, in Dafny

The repository has two small Python programs:

- `src/generator.py` writes a file of random objects separated by commas. Each object is one of four kinds:
  - a run of letters;
  - a real number with six decimals;
  - an integer;
  - a run of letters and digits padded with up to ten spaces on each side.

  Objects are added until the file reaches a target size. The text is buffered and flushed to the file in chunks; every chunk but the last is at least 1 MB.
- `src/processor.py` reads such a file and splits it at commas. It skips empty segments and classifies every other segment as `Integer`, `Real Number`, `Alphabetical String`, `Alphanumeric` or `Unknown`. The classifier is a ladder of four regular-expression tests. Each segment produces a line `Object: <stripped token>, Type: <label>`, and the program counts how many segments got each label.

This project models both cores and proves what they promise.

- `chars.dfy` (module `Chars`): the character classes the programs use, in their ASCII form:
  - digits and letters (`\d`, `[a-zA-Z]`);
  - Python's whitespace (`str.strip`, `\s`);
  - `string.ascii_letters` and `string.ascii_letters + string.digits`;
  - the UTF-8 size of a string.
- `strings.dfy` (module `Strings`): `str.strip()`, `str.split(',')` and `','.join`, with their laws:
  - strip removes exactly the surrounding whitespace and is idempotent;
  - split undoes join when no piece holds a comma.
- `processor.dfy` (module `Processor`): `identify_object_type` and the counting loop of `process_file`.
  - The patterns `-?\d+\.\d+` and `\s*[a-zA-Z0-9]+\s*` are greedy scans, and a lemma for each shows that the scan accepts exactly the language of the pattern. The patterns `-?\d+` and `[a-zA-Z]+` are defined directly, as `IsIntegerText` and `IsLettersText`.
  - A lemma per label gives the exact condition for that label.
  - The loop is a method proved against the functions `Results` and `Counts`. Lemmas about those functions say:
    - one line per non-empty segment, in order;
    - each count is the number of segments with that label;
    - the counts add up to the number of non-empty segments.
- `generator.dfy` (module `Generator`): the three builders and the loop of `generate_file`.
  - Each builder takes its random draws as arguments. Its contract gives the shape of what it builds, and a reachability lemma shows that every string of that shape can be built.
  - The loop is a method that returns the chunks written to the file. It is proved to produce:
    - the objects joined by commas;
    - a size counter equal to the UTF-8 size of the text;
    - the first text to reach the target;
    - an overshoot of less than a comma and one object;
    - chunks that are all non-empty, where every chunk but the last was flushed because the buffer had reached 1 MB.
- `pipeline.dfy` (module `Pipeline`): the two programs together.
  - Splitting a generated file gives back its objects.
  - Each generated object is classified as its draw determines.
  - Processing a generated file yields one line per object, in order.
  - An alphanumeric draw is not always labelled `Alphanumeric`: a core of only letters is an `Alphabetical String`, and a core of only digits is an `Integer`.

## Behaviour worth knowing

- **Tests on the stripped token.** The Integer, Real Number and Alphabetical String tests look at the stripped token (`src/processor.py:10-22`). So `"  12  "` gives `("12", Integer)`. See `Processor.IntegerDespitePadding` and `Processor.PaddedIntegerExample`.
- **Digits followed by letters.** The last test (`src/processor.py:25`) accepts any run of letters and digits, so `12a` is `Alphanumeric`. See `Processor.DigitsThenLettersAlphanumeric`.
- **Percentages.** The percentages divide by the number of all segments, empty ones included (`src/processor.py:50`, `:93`). Percentages are not modelled; see below.

## Model

| member | source | states |
|---|---|---|
| Chars.AsciiLetters | src/generator.py:11 | `string.ascii_letters`: 52 characters, each a letter: a–z, then A–Z |
| Chars.AsciiLettersAndDigits | src/generator.py:24 | `ascii_letters + digits`: the 52 letters, then the digits 0–9 at positions 52–61 |
| Chars.LettersAndDigitsAlphabet | src/generator.py:24 | every character of `ascii_letters + digits` is a letter or a digit |
| Chars.Utf8LengthAscii | src/generator.py:60 | the UTF-8 size of a string is at least its length, and equals it exactly when the string is ASCII |
| Strings.Strip | src/processor.py:10 | `strip()` gives a string no longer than its input that neither starts nor ends with whitespace |
| Strings.StripDecompose | src/processor.py:10 | the input is the stripped text with only whitespace before and after it |
| Strings.StripUnique | src/processor.py:10 | any whitespace around a text that has no whitespace at either end is exactly what `strip()` removes |
| Strings.StripIdempotent | src/processor.py:10 | stripping twice is stripping once |
| Strings.Split | src/processor.py:49 | `split(',')` gives at least one piece, no piece holds a comma, and joining the pieces with commas gives back the input |
| Strings.SplitJoin | src/processor.py:49 | splitting text joined from comma-free pieces gives back exactly those pieces, empty ones included |
| Strings.JoinSnoc | src/generator.py:55-59 | appending a comma and an object to the joined text is joining one more object |
| Processor.RealScanMatchesPattern | src/processor.py:17 | the scan used for the Real Number test accepts exactly the language of `-?\d+\.\d+` |
| Processor.PaddedAlnumScanMatchesPattern | src/processor.py:25 | the scan used for the Alphanumeric test accepts exactly the language of `\s*[a-zA-Z0-9]+\s*` |
| Processor.IdentifyObjectType | src/processor.py:7-29 | the value returned is the stripped token, whatever the label |
| Processor.IntegerDespitePadding | src/processor.py:10-14 | any whitespace around an optional minus and digits gives (those characters, Integer) |
| Processor.IntegerExactly | src/processor.py:13-14 | the label is Integer exactly when the stripped token matches `-?\d+` |
| Processor.RealIsNotInteger | src/processor.py:13-18 | a text that passes the Real Number test never passes the Integer test, so the second rung decides it |
| Processor.RealNumberExactly | src/processor.py:13-18 | the label is Real Number exactly when the stripped token is in the language of `-?\d+\.\d+` |
| Processor.PaddedAlnumIffStrippedAlnum | src/processor.py:25 | the Alphanumeric test on the raw token holds exactly when the stripped token is a non-empty run of letters and digits |
| Processor.PaddedCoreIsStripped | src/processor.py:25-27 | the run the Alphanumeric pattern matches between its two `\s*` is the stripped token, the value returned |
| Processor.AlphabeticalExactly | src/processor.py:21-22 | the label is Alphabetical String exactly when the stripped token is a non-empty run of letters |
| Processor.AlphanumericExactly | src/processor.py:24-27 | the label is Alphanumeric exactly when the stripped token is a non-empty run of letters and digits holding at least one letter and one digit |
| Processor.AlnumTokenCategory | src/processor.py:13-27 | a stripped run of letters and digits is Integer if all digits, Alphabetical String if all letters, otherwise Alphanumeric |
| Processor.UnknownExactly | src/processor.py:29 | the label is Unknown exactly when the stripped token is not an integer, not a real and not a run of letters and digits |
| Processor.WhitespaceIsUnknown | src/processor.py:10-29 | a segment of whitespace only gives ("", Unknown) |
| Processor.PaddedIntegerExample | src/processor.py:10-14 | `"  12  "` gives ("12", Integer) |
| Processor.DigitsThenLettersAlphanumeric | src/processor.py:21-27 | digits followed by letters, such as `12a`, give (the token, Alphanumeric) |
| Processor.DigitsThenLettersShape | src/processor.py:13-25 | digits followed by letters are a run of letters and digits that is neither all digits nor all letters |
| Processor.Unpadded | src/processor.py:10 | a text that neither starts nor ends with whitespace is its own strip |
| Processor.MalformedRealExamples | src/processor.py:17 | `1.2.3`, `12.` and `.5` are not in the Real Number language |
| Processor.RetainedExactly | src/processor.py:64-66 | the loop keeps every non-empty segment and nothing else |
| Processor.Tally | src/processor.py:56-62 | the count table always has an entry for each of the five labels, so the `+= 1` always finds its key |
| Processor.TallyPerLabel | src/processor.py:74 | the entry of a label is the number of times the label occurs |
| Processor.TallyTotal | src/processor.py:56-74 | the entries add up to the number of labels tallied |
| Processor.CountsPerLabel | src/processor.py:64-74 | each count is the number of non-empty segments with that label, and there is one label per kept segment |
| Processor.CountsTotal | src/processor.py:64-74 | the counts add up to the number of non-empty segments |
| Processor.ProcessOne | src/processor.py:64-74 | an empty segment changes neither the lines nor the counts; a non-empty one appends its line and its label |
| Processor.ProcessObjects | src/processor.py:55-74 | the loop builds exactly the result lines (one per non-empty segment, in order) and the label counts |
| Processor.ProcessContent | src/processor.py:49-74 | processing the content is that loop over its comma-separated segments |
| Generator.GenerateAlphabeticalString | src/generator.py:8-11 | the string has a length in `[min_length, max_length]` and holds only letters |
| Generator.AlphabeticalStringsReachable | src/generator.py:8-11 | every letter string of an allowed length can be drawn |
| Generator.NatToDecimal | src/generator.py:19 | `str` of a non-negative number is a non-empty run of digits without a leading zero |
| Generator.DecimalRoundTrip | src/generator.py:19 | reading back the digits `str` wrote gives the number |
| Generator.DecimalCanonical | src/generator.py:19 | a run of digits without a leading zero is the `str` of its value |
| Generator.DecimalLength | src/generator.py:19 | a number below `10^k` takes at most `k` digits |
| Generator.GenerateInteger | src/generator.py:17-19 | at most six characters: a minus exactly for a negative draw, then at most five digits without a leading zero whose value is the magnitude of the draw |
| Generator.IntegerReachable | src/generator.py:17-19 | every optional minus followed by digits without a leading zero, of value at most 10000 and not `-0`, is built from the integer it denotes |
| Generator.Spaces | src/generator.py:25-26 | `' ' * n` is exactly `n` space characters |
| Generator.AlphanumericCore | src/generator.py:23-24 | the core has the drawn length and holds only letters and digits |
| Generator.GenerateAlphanumericWithSpaces | src/generator.py:21-27 | exactly the drawn number of `' '` characters, then the core `AlphanumericCore` builds from the drawn picks (letters and digits of the drawn length), then exactly the drawn number of `' '` characters |
| Generator.AlphanumericReachable | src/generator.py:21-27 | every run of letters and digits of an allowed length, with 0 to 10 spaces on each side, can be drawn |
| Generator.TokenShape | src/generator.py:43-52 | each of the four branches builds a non-empty ASCII text of at most 40 characters without a comma |
| Generator.ContentStep | src/generator.py:55-61 | one more object appends a comma (except for the first object) and the object to the text |
| Generator.AppendObject | src/generator.py:55-59 | adding a comma (except before the first object) and the object to the buffer keeps what was written plus the buffer equal to the text so far |
| Generator.Flush | src/generator.py:64-67 | a flush moves the buffer into the chunks without changing the text, and the new chunk is at least 1 MB and less than 1 MB plus a comma and one object |
| Generator.ContentGrows | src/generator.py:55-61 | every object makes the text strictly longer |
| Generator.FirstToReach | src/generator.py:41 | since the text only grows, the loop condition held for every smaller object count |
| Generator.LoopExit | src/generator.py:41-77 | at exit the text's UTF-8 size is its length, it is the first text to reach the target, it overshoots by less than a comma and one object, and a target of 0 bytes or less produces no object |
| Generator.GenerateFile | src/generator.py:29-77 | the chunks written are the objects joined with commas; `current_size` is their UTF-8 size and at least the target; the loop stops at the first count that reaches the target, with a bounded overshoot; a target of 0 bytes or less writes nothing; every chunk is non-empty, and every chunk but the last was flushed because the buffer reached 1 MB |
| Pipeline.ObjectStream | src/generator.py:43-52 | the objects the loop draws are those the four builders return, each one a non-empty ASCII text without a comma |
| Pipeline.SplitRecoversObjects | src/processor.py:49 | splitting a generated file at commas gives back exactly the generated objects |
| Pipeline.RetainedAll | src/processor.py:64-66 | when no segment is empty, the loop keeps every segment |
| Pipeline.LettersClassified | src/processor.py:21-22 | a generated letter string is (itself, Alphabetical String) |
| Pipeline.RealClassified | src/processor.py:17-18 | a formatted real number is (itself, Real Number) |
| Pipeline.IntegerClassified | src/processor.py:13-14 | a generated integer is (itself, Integer) |
| Pipeline.AlphanumericClassified | src/processor.py:24-27 | a generated alphanumeric object is shown without its spaces, with the label its core earns |
| Pipeline.GeneratedObjectClassified | src/processor.py:7-29 | every generated object is classified as its draw determines |
| Pipeline.AlphanumericDrawOfLetters | src/generator.py:21-27 | an alphanumeric draw that picks only letters is labelled Alphabetical String, not Alphanumeric |
| Pipeline.AlphanumericDrawOfDigits | src/generator.py:21-27 | an alphanumeric draw that picks only digits is labelled Integer, not Alphanumeric |
| Pipeline.ResultsOfObjects | src/processor.py:64-74 | with no empty segment, there is one line and one label per segment, in order, and the counts add up to the number of segments |
| Pipeline.StreamClassified | src/processor.py:64-68 | each of the first `n` generated objects is non-empty and classified as its draw determines |
| Pipeline.ProcessingGeneratedObjects | src/processor.py:64-74 | the loop over `n` generated objects gives line `i` for object `i`, with the classification its draw determines, and counts `n` objects |
| Pipeline.EmptyFileProcessed | src/processor.py:49-66 | the empty file splits into one empty segment, which gives no line, no label and no count |
| Pipeline.ProcessingGeneratedFile | src/processor.py:49-74 | processing a generated file of `n` objects gives one line and one label per object, in order, with the classification its draw determines, and counts `n` objects; for `n = 0` that is nothing |

## Left out

- Randomness:
  - Every call to `random.randint`, `random.choice` and `random.uniform` is an argument: the builders take the drawn values, and the file loop takes the stream of objects drawn.
  - `Generator.ValidDraw` bounds each draw to what the random module can return with the default `min_length=1, max_length=20`.
- `generate_real_number` (`src/generator.py:13-15`) is not modelled, because it formats a float. A real-number draw carries its text already formatted. `Generator.RealShape` assumes the `-?d{1,5}.dddddd` shape of `f"{x:.6f}"` for `x` in `[-10000, 10000]`.
- `Generator.GenerateFile` takes `objects(n)`, the object of iteration `n`, rather than the draws. `Pipeline.ObjectStream` connects the two through `Generator.Token`.
- The buffering is modelled, but writing to and opening the file are not. The result is the sequence of strings passed to `f.write`.
- Not modelled in either program:
  - file existence checks;
  - reading the file;
  - printing the result lines;
  - progress output;
  - timing;
  - `os.path.getsize`;
  - saving the results with `'\n'.join`.
- Percentages in the summary (`src/processor.py:92-94`) are not modelled, because they are floating-point numbers. Only the counts are.
- The `except Exception` handler of `process_file` is not modelled. No modelled operation raises an exception.
- The command-line entry points are not modelled. That includes `float(sys.argv[2])`: `Generator.GenerateFile` takes a whole number of megabytes, because a float target would only change the bound that the loop compares against.
- The result keys of `object_counts` are modelled as the datatype `Processor.Category`. `Processor.Label` gives the five strings the program prints.
- Unicode is not modelled:
  - Characters are treated as ASCII.
  - Python's `\d`, `\s` and `str.strip()` also accept non-ASCII digits and whitespace. The model uses only their ASCII members, which are all the generator produces.
  - The UTF-8 size is modelled for every code point, but it is used only on ASCII text.
