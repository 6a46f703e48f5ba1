# Text datasets of `blocks.datasets.text`, modelled in Dafny

This project models the three pieces of data handling in
`blocks/datasets/text.py`:

- **`TextFile`** reads sentences, one per line, from a list of files and
  turns each into a list of integer ids through a dictionary. The
  constructor checks that every configured marker token (beginning and end
  of sentence) and the unknown-word token are dictionary keys, and that the
  level is `word` or `character`. `get_data` refuses any request, takes
  exactly one line from the cursor, and optionally preprocesses it. It then
  cuts the line into whitespace-separated words (`str.split()`) or into the
  characters of the stripped line (`str.strip()`), looks each token up with
  the unknown token as fallback, and frames the result with the marker ids.
- **`OneBillionWord`** checks the subset name (`training` or `heldout`) and
  the partition indices (1 to 99, or 0 to 49). It builds one path per
  index, `<data root>/1-billion-word/<subset dir>/news.en-NNNNN-of-00100` or
  `.../news.en.heldout-NNNNN-of-00050`, with `NNNNN` the index written with
  `'{:05d}'`. It then builds a `TextFile` over those paths.
- **`NGramStream`** wraps a stream of sentence batches. Its `get_data` loop
  turns cached sentences into n-gram windows, each paired with the token
  that follows it. Meanwhile it trims, pops and refills its cache in
  place.

Modules:

| file | module | contents |
|---|---|---|
| `wrappers.dfy` | `Wrappers` | `Option`, `Result` and the two Python exceptions raised (`ValueError`, `StopIteration`) |
| `slices.dfy` | `Slices` | Python slice bounds, negative and clamped (`s[:k]`, `s[k:]`) |
| `strings.dfy` | `Strings` | Python 3 `str.isspace`, `str.split()`, `str.strip()`, `'{:05d}'.format`, POSIX `os.path.join` |
| `text_file.dfy` | `TextFiles` | the `TextFile` dataset, its line cursor and its encoding |
| `one_billion_word.dfy` | `OneBillionWord` | subset and partition checks, file paths |
| `ngram_stream.dfy` | `NGrams` | the `NGramStream` class, its `get_data` loop, and a pure specification of that loop |

`TextFile` is a datatype: nothing changes its fields after construction.
Its iteration state, which `open()` creates and `next(state)` advances, is a
`Cursor` of the concatenated lines and a position.

`NGramStream` is a class with two mutable fields: the cache list of its
single source and the batches upstream has yet to deliver. `GetData` is a
`while` loop over an index into the cache, as the Python `for` loop walks
the list by index. Each pass runs `Pass`, which models the body of the
`for` loop. `GetData` is proved equal to `Run`, a pure function that
performs the passes (`Step`) one after another. The properties are proved
about `Run`. The model follows the code as written, including behaviour
that a reader might not expect:

- `request - len(features)` counts the per-sentence lists appended so far,
  not windows. The loop stops after `request` sentences, not after
  `request` windows.
- Every pass trims the *head* of the cache by `request` tokens, whatever
  sentence the iterator read.
- Popping the head shifts the list under the iterator, so the next pass
  skips a sentence (`NGrams.SkippedSentenceExample`).
- When `_cache()` finds upstream exhausted it raises `StopIteration`, and
  the windows collected in that call are lost.
- A fresh stream starts with an empty cache, so a `get_data` on it returns
  two empty lists and does not pull upstream (`NGrams.GetDataOnEmptyCache`).
- A sentence of length `L` with order `K >= 1` yields `L - K` windows when
  `L > K`, and none otherwise: `sliding_window` runs over the `L - 1`
  tokens of `sentence[:-1]`. It yields as many targets, from
  `sentence[K:]`.

## Model

| member | source | states |
|---|---|---|
| `TextFiles.New` | blocks/datasets/text.py:74-90 | construction succeeds exactly when a given BOS token, a given EOS token and the unknown token are dictionary keys and the level is `word` or `character`; otherwise it fails with `ValueError`; on success every argument is kept unchanged and the dataset satisfies `Valid` |
| `TextFiles.Open` | blocks/datasets/text.py:93-94 | a fresh traversal starts at the first line |
| `TextFiles.OpenReadsFilesInOrder` | blocks/datasets/text.py:93-94 | line `j` of file `k` appears in the traversal right after all lines of the files before `k`, and the lines up to file `k` are those before it followed by exactly file `k`'s lines, so the files are read one after another in the order given |
| `TextFiles.LinesAppend` | blocks/datasets/text.py:93-94 | the lines of two file lists read in turn are the first list's lines followed by the second's: `chain` adds, drops and reorders nothing between files |
| `TextFiles.Next` | blocks/datasets/text.py:102 | `next(state)` yields the line under the cursor and advances by one, or raises `StopIteration` exactly when no line is left |
| `TextFiles.GetData` | blocks/datasets/text.py:99-113 | a non-`None` request fails with `ValueError` before any line is read; at the end of the lines the result is `StopIteration`; otherwise exactly one line is consumed and its preprocessed form is encoded |
| `TextFiles.EncodeShape` | blocks/datasets/text.py:105-113 | the ids are `[bos id]`, if a non-empty BOS token is set, then one id per token in order, then `[eos id]` if a non-empty EOS token is set; the length is the token count plus one per marker; a token missing from the dictionary gets the unknown token's id |
| `TextFiles.WordTokens` | blocks/datasets/text.py:106-108 | in word mode every token is non-empty and free of whitespace, and the tokens together hold exactly the non-whitespace characters of the sentence, in order |
| `TextFiles.WordTokensBreakAtSpace` | blocks/datasets/text.py:106-108 | word tokens break exactly at whitespace: whitespace in front is skipped, a word followed by whitespace or by the end is one token, and whitespace alone gives no token; with `Split`'s recursion this fixes the token list of every sentence |
| `TextFiles.CharacterTokens` | blocks/datasets/text.py:109-111 | in character mode the tokens are the single characters of a contiguous part of the sentence that neither starts nor ends with whitespace, and only whitespace lies outside it |
| `TextFiles.DocumentedExample` | blocks/datasets/text.py:50-62 | with the docstring's dictionary, no BOS token and lowercasing, the two lines encode to `[2, 0, 3, 0, 1]` and `[2, 0, 4, 1]`, and then the data ends |
| `OneBillionWord.Files` | blocks/datasets/text.py:151-171 | the paths are built exactly when the subset is `training` or `heldout` and every index lies in 1..99 (training) or 0..49 (held-out); otherwise `ValueError`; on success there is one path per index, in the given order |
| `OneBillionWord.New` | blocks/datasets/text.py:151-172 | a refused subset or index gives `ValueError`; otherwise the result is the `TextFile` constructor applied to the resolved paths and the remaining arguments |
| `OneBillionWord.PartitionPathShape` | blocks/datasets/text.py:158-170 | a path is the data root, `1-billion-word`, the subset's directory and the file name, one `/` between neighbours, with no `/` added after a root that is empty or already ends with one |
| `OneBillionWord.FileNameShape` | blocks/datasets/text.py:158-171 | every admitted index yields the file name `news.en-NNNNN-of-00100` or `news.en.heldout-NNNNN-of-00050`, where `NNNNN` is exactly five digits that read back as the index |
| `OneBillionWord.PathsDistinct` | blocks/datasets/text.py:158-171 | two different admitted indices of one subset never resolve to the same path |
| `OneBillionWord.FilesOnePerPartition` | blocks/datasets/text.py:158-171 | in a resolved file list, entries for different indices are different files |
| `Strings.SplitKeepsText` | blocks/datasets/text.py:108 | `str.split()` loses only whitespace: its pieces concatenate to the non-whitespace characters of the input |
| `Strings.SplitJoin` | blocks/datasets/text.py:108 | splitting whitespace-free words joined by any non-empty whitespace separator gives the words back |
| `Strings.StripIsTrim` | blocks/datasets/text.py:111 | `str.strip()` returns a contiguous part of the input that neither starts nor ends with whitespace, with only whitespace before and after it |
| `Strings.Format05RoundTrip` | blocks/datasets/text.py:161 | the zero-padded decimal text of a number reads back as that number |
| `Strings.Format05Width` | blocks/datasets/text.py:161 | below 100000 the `'{:05d}'` text is exactly five characters wide |
| `Strings.PathJoin` | blocks/datasets/text.py:158-161 | the joined path ends with its last component |
| `Strings.PathJoinComponents` | blocks/datasets/text.py:158-161 | joining a root and three relative components keeps all four in order with one `/` between neighbours |
| `NGrams.Windows` | blocks/datasets/text.py:214-216 | `sliding_window(n, s)` yields no windows for `n = 0` or `|s| < n`, otherwise `|s| - n + 1`; window `j` is `s[j..j + n]` |
| `NGrams.WindowsAndTargetsAlign` | blocks/datasets/text.py:214-218 | for order `n >= 1` a sentence offers as many windows as targets, `|s| - n` of each and none when `|s| <= n`; window `j` is `s[j..j + n]` and target `j` is `s[n + j]`, the token right after it |
| `NGrams.CutWindowsAndTargetsAlign` | blocks/datasets/text.py:214-218 | the same pairing holds after both lists are cut with `[:request - len(...)]` |
| `NGrams.ConsumeCache` | blocks/datasets/text.py:219-223 | a pass trims the head by `request` tokens and pops it when it empties; upstream is pulled only when that empties the cache, and its next batch then becomes the cache; the pending sentences lose exactly the old head, in favour of its trimmed rest when that is non-empty |
| `NGrams.GetDataOutputs` | blocks/datasets/text.py:211-226 | a call appends one entry to both outputs per pass; entry `j` is the windows and targets of the `j`-th sentence read, cut to `request - j`; with a positive request there are at most `request` entries, exactly `request` after a `break`; a loop that neither broke nor raised ran out of list; every sentence read, and every sentence still in the cache or upstream afterwards, is a sentence pending at the start of the call (cache, then upstream batches), possibly with leading tokens trimmed |
| `NGrams.GetDataPairsAlign` | blocks/datasets/text.py:211-226 | in every entry of a call's output, for order `n >= 1`, the windows and targets have equal length, each window is a slice of its sentence, and its target is the next token |
| `NGrams.GetDataOnEmptyCache` | blocks/datasets/text.py:211-213 | on an empty cache the loop body never runs: two empty lists, and upstream untouched |
| `NGrams.SingleSentenceExample` | blocks/datasets/text.py:211-226 | order 2, request 3, sentence `[5, 6, 7, 8, 1]`: windows `[5, 6]`, `[6, 7]`, `[7, 8]`, targets `7, 8, 1`, and the head keeps `[8, 1]` |
| `NGrams.SkippedSentenceExample` | blocks/datasets/text.py:213-223 | after the head is popped the iterator skips a sentence: the second pass reads the third sentence but trims the second |
| `NGrams.Sources` | blocks/datasets/text.py:205-208 | more than one wrapped source fails with `ValueError`; otherwise the sources are the wrapped ones followed by the target source |
| `NGrams.NGramStream.constructor` | blocks/datasets/text.py:203-209 | the stream keeps the order, exposes the wrapped source followed by the target source, and starts with an empty cache over the given upstream batches; the target source defaults to `targets` |
| `NGrams.NGramStream.Refill` | blocks/datasets/text.py:223 | `_cache()` appends the next upstream batch to the cache, or reports exhaustion and changes nothing |
| `NGrams.NGramStream.Pass` | blocks/datasets/text.py:214-223 | one pass of the loop body appends the sentence's cut windows and targets, then leaves the cache and upstream as `Consume` says, reporting `StopIteration` exactly when `Raises` holds |
| `NGrams.NGramStream.GetData` | blocks/datasets/text.py:211-226 | the returned batch or `StopIteration`, the new cache and the new upstream are those of `Run` from the old cache and upstream, so every property proved about `Run` holds of the method |

## Left out

- File I/O: `open(f)` and `_iter` in `TextFile.open` become a function parameter `read` from file name to lines. `TextFile._open_file` only opens a file and is not modelled.
- The dictionary is a `map<string, int>`. The docstring also mentions a path to a pickled dictionary, but this code never loads one.
- The `preprocess` callable is an arbitrary function value, applied as given and never inspected.
- `config.data_path` is a parameter of `OneBillionWord.Files` and `OneBillionWord.New`.
- The `**kwargs` of `OneBillionWord.__init__` are spelled out as the `TextFile` constructor's parameters.
- `numpy.asarray` on the two output lists: the batch stays as nested sequences, since the lists are ragged in general.
- `NGrams.NGramStream.GetData`: `request` is an integer. With `request=None` the Python code raises `TypeError` on `None - len(features)` as soon as the cache has a sentence, and that case is not modelled.
- `NGrams.NGramStream.constructor`: requires exactly one wrapped source, because `get_data` reads only the first source's cache. The pure `NGrams.Sources` models the check as written, zero sources included.
- Negative `ngram_order`: the order is a `nat`; `sliding_window` rejects a negative order in foreign code.
- Partition indices are integers; other Python values in `which_partitions` are not modelled.
- Iteration schemes, `get_epoch_iterator`, the default stream and the rest of the `Dataset` and `CachedDataStream` machinery are foreign code. `_cache()` is specified as "append the next upstream batch".
- Strings are sequences of code points. `str.split()` and `str.strip()` use Python 3's `str.isspace` set. Python 2 byte strings are not modelled.
- `TextFiles.DocumentedExample`: `str.lower` is modelled on ASCII capitals only, which covers the example's text.
