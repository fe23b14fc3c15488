# Thumbnail Lambda, modelled in Dafny

The system is an AWS Lambda function, `lambda_handler`. It receives an event naming a
source bucket and an object key. It then:

1. downloads the object;
2. decodes it as an image;
3. shrinks the image to fit the configured width and height;
4. encodes the result in its detected format, or JPEG if none was detected;
5. uploads it to the configured output bucket under `thumbnails/{name}_thumb{ext}`.

The answer is `{status: success, file}` or `{status: error, message}`. Every exception
becomes an error answer.

The model has four modules:

- `Values` (`values.dfy`): `Option`, `Result` and bytes.
- `PosixPath` (`posix_path.dfy`): `str.rfind` for one character, plus `os.path.basename`
  and `os.path.splitext` as Python's `posixpath` defines them. The extension starts at the
  last dot of the last path component, unless only dots come before that dot in the
  component.
- `ThumbnailNaming` (`naming.dfy`): the output key, the encoder format with its JPEG
  default, and the content type `image/` + lower-cased format. These are pure functions,
  and their properties are stated as lemmas.
- `LambdaHandler` (`handler.dfy`): the handler.
  - The object store and the image library are *collaborators*: a `Services` value of
    total functions, each returning a `Result`. `Err` carries the text of the exception
    the call would raise.
  - `Invoke` gives the whole behaviour for one event as a response plus the ordered trace
    of collaborator calls. `Pipeline` is the `try` body once both fields are read.
  - `Handler` is a class holding the configuration, the collaborators and a call log
    `calls`. Its method `Handle` runs the steps one at a time with early error returns.
    It is proved to return `Invoke`'s response and to append exactly `Invoke`'s trace to
    the log.

## Model

| member | source | states |
|---|---|---|
| `PosixPath.RFindSpec` | lambda_function.py:47-48 | the index found holds the character, and no later index does; -1 means it does not occur |
| `PosixPath.BasenameSpec` | lambda_function.py:47 | the basename is a suffix of the path with no `/`; it is the whole path or comes right after a `/` |
| `PosixPath.SplitExtSpec` | lambda_function.py:48 | `name + ext` is the input again; `ext` is empty or one dot followed by text with no dot or `/` |
| `PosixPath.BasenameOfName` | lambda_function.py:47 | a key with no `/` is its own basename |
| `PosixPath.BasenameAfterDirectory` | lambda_function.py:47 | after a directory part ending in `/`, the basename is the rest |
| `PosixPath.SplitAtExtension` | lambda_function.py:48 | a name containing a non-dot, followed by `.` and dot-free text, splits at that dot |
| `PosixPath.NoExtension` | lambda_function.py:48 | leading dots followed by dot-free text have no extension (`.hidden`, `..png`) |
| `ThumbnailNaming.ThumbFileNameSpec` | lambda_function.py:47-50 | the thumbnail file name has no `/`; the extension kept is never empty and is a single extension |
| `ThumbnailNaming.OutputKeyShape` | lambda_function.py:47-50 | the output key starts with `thumbnails/` and has no `/` after that prefix |
| `ThumbnailNaming.OutputKeyRoundTrip` | lambda_function.py:47-50 | basename of the output key is the thumbnail file name; splitting it gives `name + "_thumb"` and the kept extension |
| `ThumbnailNaming.OutputKeyInjective` | lambda_function.py:47-50 | two keys whose basenames have extensions share an output key only if their basenames are equal |
| `ThumbnailNaming.OutputKeyWithExtension` | lambda_function.py:47-50 | under any directory, `name + ext` maps to `thumbnails/` + `name` + `_thumb` + `ext` |
| `ThumbnailNaming.OutputKeyOfExtensionless` | lambda_function.py:47-50 | under any directory, a file name with no `/` and no extension maps to `thumbnails/` + name + `_thumb.jpg` |
| `ThumbnailNaming.OutputKeyWithoutExtension` | lambda_function.py:47-50 | under any directory, leading dots followed by dot-free text map to `thumbnails/` + that name + `_thumb.jpg` |
| `ThumbnailNaming.OutputKeyExamples` | lambda_function.py:46-50 | `folder/example.png` maps to `thumbnails/example_thumb.png`; `example.jpg` maps to `thumbnails/example_thumb.jpg` |
| `ThumbnailNaming.OutputKeyDefaultExtension` | lambda_function.py:49-50 | `noext` maps to `thumbnails/noext_thumb.jpg` |
| `ThumbnailNaming.OutputKeyLastDot` | lambda_function.py:48-50 | only the last dot splits (`archive.tar.gz`); a trailing lone dot is kept as the extension |
| `ThumbnailNaming.OutputKeyLeadingDots` | lambda_function.py:48-50 | `.hidden` and `..png` have no extension and get `_thumb.jpg` |
| `ThumbnailNaming.OutputKeyOfDirectory` | lambda_function.py:47-50 | a key ending in `/` maps to `thumbnails/_thumb.jpg` |
| `ThumbnailNaming.DefaultExtensionCollides` | lambda_function.py:48-50 | a file name with no `/`, no extension and some character other than a dot (e.g. `noext`, `.hidden`), under any directory, gets the same output key as that name with `.jpg` appended |
| `ThumbnailNaming.DotsThenDefaultExtension` | lambda_function.py:48 | a name of dots only, with `.jpg` appended, has no `/` and no extension |
| `ThumbnailNaming.DotsOnlyDoNotCollide` | lambda_function.py:48-50 | a name of dots only (including the empty name of `d/`), under any directory, gets a different output key from that name with `.jpg` appended |
| `ThumbnailNaming.EncodeFormat` | lambda_function.py:42 | the format is never empty; it is the detected format when one is detected and non-empty, otherwise `JPEG` |
| `ThumbnailNaming.LowerChar` | lambda_function.py:57 | the result is never an upper-case letter; other characters are unchanged; an upper-case letter moves to its lower-case counterpart |
| `ThumbnailNaming.Lower` | lambda_function.py:57 | same length as the input, lower-cased character by character |
| `ThumbnailNaming.ContentType` | lambda_function.py:57 | `image/` followed by the format lower-cased, character by character, with no upper-case letter |
| `ThumbnailNaming.LowerIdempotent` | lambda_function.py:57 | lower-casing twice is the same as once |
| `ThumbnailNaming.ContentTypeExamples` | lambda_function.py:42-57 | no format or an empty one gives `image/jpeg`; `PNG` gives `image/png`; `GIF` gives `image/gif` |
| `LambdaHandler.KeyErrorText` | lambda_function.py:26-27 | the error text for a missing field is that field's name in single quotes |
| `LambdaHandler.PipelineTrace` | lambda_function.py:29-64 | for every collaborator outcome: 1 to 5 calls, the first the fetch of the named object, the i-th of stage i, all but the last returned; success iff the fifth returned, with `file` the output key; otherwise the last call's message |
| `LambdaHandler.PipelineDataFlow` | lambda_function.py:30-58 | each call of the `try` body takes the previous call's result; the store goes to the output bucket under the given output key, with the content type of the encoder format |
| `LambdaHandler.FieldsReadFirst` | lambda_function.py:24-30 | no call is made iff a field is missing; the message is `'bucket'` or `'key'`, for the first missing; the first call fetches the named object |
| `LambdaHandler.CallsFollowPipeline` | lambda_function.py:29-58 | at most five calls; the i-th call is stage i; every call before the last returned |
| `LambdaHandler.AtMostOneFetchAndStore` | lambda_function.py:30-58 | no invocation fetches or stores more than once |
| `LambdaHandler.ResponseReflectsCalls` | lambda_function.py:24-71 | success iff all five calls were made and returned; otherwise the error message is what the last call raised |
| `LambdaHandler.DataFlowsThroughPipeline` | lambda_function.py:30-58 | each call takes the previous call's result; the store goes to the output bucket, under the derived key, with the content type of the encoded format |
| `LambdaHandler.SuccessfulInvocation` | lambda_function.py:53-64 | on success: both fields were present; exactly one fetch and one store; the store targets the output bucket; `file` is the stored key, which is `OutputKey` of the source key |
| `LambdaHandler.FileDependsOnlyOnKey` | lambda_function.py:47-64 | two successful invocations with the same source key report the same `file`, whatever the bucket, configuration or collaborators |
| `LambdaHandler.EncodedImageWithinBounds` | lambda_function.py:36-43 | if the library never enlarges and always fits the bounds, the encoded image is within the configured bounds and no larger than the decoded one |
| `LambdaHandler.StoredFormatIsDecodedFormat` | lambda_function.py:34-57 | if the thumbnail step keeps the decoded image's format, the encoder format and the content type are those of the format the decoder detected, or JPEG |
| `LambdaHandler.UndetectedFormatKeepsKeyExtension` | lambda_function.py:42-57 | `folder/example.png` with no detected format is stored as `image/jpeg` under `thumbnails/example_thumb.png` |
| `LambdaHandler.Handler.constructor` | lambda_function.py:7-12 | a handler starts with an empty call log and the given configuration and collaborators |
| `LambdaHandler.Handler.Fetch` | lambda_function.py:30-31 | appends the `get_object` call to the log and returns its result |
| `LambdaHandler.Handler.Decode` | lambda_function.py:34 | appends the `Image.open` call to the log and returns its result |
| `LambdaHandler.Handler.Shrink` | lambda_function.py:37 | appends the `thumbnail` call, with the configured bounds, to the log and returns its result |
| `LambdaHandler.Handler.Encode` | lambda_function.py:40-44 | appends the `save` call, with the chosen format, to the log and returns its result |
| `LambdaHandler.Handler.Store` | lambda_function.py:53-58 | appends the `put_object` call to the log and returns its result |
| `LambdaHandler.Handler.Handle` | lambda_function.py:14-71 | returns exactly `Invoke`'s response, and the log grows by exactly `Invoke`'s call trace |

## Left out

- The object store client (`boto3`): network I/O, authentication, retries and the
  module-level client. `get_object` and `put_object` are modelled only as fallible
  functions of their arguments. Reading the response body is part of `getObject`.
- Pillow: `Image.open`, `thumbnail` and `save` are fallible functions of their inputs.
  The resize arithmetic, which preserves aspect ratio with float scaling and rounding, is
  not modelled.
- `LambdaHandler.EncodedImageWithinBounds`: it proves the bounds only under the
  assumption `ShrinksToFit` on the library. Nothing here proves that assumption.
- Reading the environment and parsing `THUMB_W`/`THUMB_H` with `int()`. This includes
  the `'300'` defaults and the failure when `OUTPUT_BUCKET` is unset. They become a
  fixed `Config`. The code does not check the bounds; what a non-positive bound does is
  up to the image library.
- `io.BytesIO`, `seek` and `getvalue`: byte plumbing. The bytes `save` returns are the
  bytes stored.
- The text of exceptions raised by the collaborators. It is an opaque message in `Err`.
  Only `KeyError`'s text for a missing field is spelled out.
- Events that are not dictionaries, and field values that are not strings. `Event` maps
  strings to strings. The code does not check that `bucket` or `key` is non-empty, so
  empty values go on to the fetch.
- `ThumbnailNaming.Lower`: lower-cases ASCII letters only. Python's `str.lower` also
  lower-cases other Unicode letters, but format names are ASCII.
- The unused `context` argument.
- Exceptions outside `Exception`, such as `KeyboardInterrupt`: `except Exception` does
  not catch them.
- Timing in `LambdaHandler.Invoke`: this function takes the output key as an argument of
  `Pipeline`, derived before the calls. `Handler.Handle` keeps the source's order and
  derives it after the encode. The key depends only on the source key, so no response
  or trace changes.
- In-place shrinking: Pillow's `thumbnail` changes the decoded image in place and returns
  `None`, and the format is then read from that same image. Here the `thumbnail`
  collaborator returns the shrunk image, and the format is read from it. So the format
  is tied to the decoded one only under the assumption `KeepsFormat`
  (`LambdaHandler.StoredFormatIsDecodedFormat`). Aliasing of the image object is not
  modelled.
