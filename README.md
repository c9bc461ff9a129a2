# go-multierror in Dafny

A model of the Go package `multierror`, whose whole logic is the aggregate
error type `MultiError` (multierror.go). A `MultiError` is an ordered
sequence of errors that is itself an error:

- `Err` gives the aggregate as an error value, nil exactly when it is empty;
- `Append` adds a non-nil error in place, ignores a nil one, and answers the
  aggregate's presence (nil only while nothing has been collected);
- `Error` renders the aggregate: `""` for no error, the single message for
  one error, and `"<N> errors: m1; m2; ...; mN"` for two or more.

Each underlying error is opaque and is identified by its message, a `string`.
An incoming error is an `Option<string>`, where `None` is Go's `nil`.

Layout:

- `wrappers.dfy`: module `Wrappers`, the `Option` type.
- `decimal.dfy`: module `Decimal`, the `%d` formatting of the count
  (`FormatDecimal`), its inverse `ParseDecimal`, and a leading-digit scan
  used to read the count back out of a rendering.
- `join.dfy`: module `Strings`, `Join` as Go's `strings.Join` behaves, with
  lemmas about its length, where each part and each separator sits, and
  joining one more part.
- `multierror.dfy`: module `Multierror`. `Render` is the specification of
  the message. `Step` and `Steps` describe the state change one or several
  `Append` calls make. Class `MultiError` has a field `errs: seq<string>`,
  the function `Err`, the method `Append` (which `modifies this`), and the
  method `Error`, whose loop collects the messages before joining them, as
  the Go does. `Error` is proved equal to `Render`.
- `examples.dfy`: module `Examples`, the package's examples and tests as
  client methods. They are proved from the class specifications alone, for
  arbitrary messages.

`Err` returns a snapshot of the sequence (`Some(errs)`), because the Go
method has a value receiver and returns the slice value. `Append` returns
`Some(this)`, because the Go method returns its receiver `e`, a `*MultiError`, so
later appends show through that result.

## Model

| member | source | states |
|---|---|---|
| Multierror.MultiError.constructor | multierror.go:10 | A `MultiError` built from an existing sequence holds exactly that sequence, in order; `MultiError{}` is the empty sequence |
| Multierror.MultiError.Err | multierror.go:14-19 | The result is nil if and only if the aggregate holds no error; otherwise it is the aggregate's own sequence |
| Multierror.MultiError.Append | multierror.go:23-39 | A nil error leaves the sequence unchanged; a non-nil error is added at the end. The result is nil iff the error is nil and the sequence was empty, i.e. iff the sequence is empty afterwards; otherwise it is this same aggregate |
| Multierror.MultiError.Error | multierror.go:43-58 | The loop-built message equals `Render` of the current sequence |
| Multierror.StepShape | multierror.go:24-39 | One append: a nil error changes nothing; a non-nil error grows the sequence by exactly one, leaves every earlier entry in place and puts its message last |
| Multierror.StepsAppendsPresent | multierror.go:24-39 | Any run of appends keeps the earlier errors and adds the non-nil incoming errors after them, in arrival order; no append ever stores a nil entry |
| Multierror.PresentEmptyIff | multierror.go:24-28 | No message is collected from a run of incoming errors exactly when all of them are nil |
| Multierror.StepsFromEmpty | multierror.go:24-31 | Starting empty, the aggregate stays empty iff every incoming error is nil, and then it renders as `""` |
| Multierror.RenderEmpty | multierror.go:44-49 | No error renders as the empty string |
| Multierror.RenderSingle | multierror.go:50-53 | One error renders as exactly its message, with no count prefix |
| Multierror.RenderTwo | multierror.go:54-58 | Two errors render as `"2 errors: "`, the first message, `"; "`, the second message |
| Multierror.RenderThree | multierror.go:54-58 | Three errors render as `"3 errors: a; b; c"` for messages a, b, c |
| Multierror.RenderEmptyIff | multierror.go:43-58 | The rendering is empty iff there is no error, or a single error whose message is empty |
| Multierror.RenderCount | multierror.go:58 | With two or more errors, the leading digits of the rendering are the decimal count, they parse back to the number of errors, and `" errors: "` follows them |
| Multierror.RenderMessageAt | multierror.go:54-58 | With two or more errors, every message appears verbatim at its own offset, and exactly `"; "` stands between consecutive messages, so the messages appear in insertion order |
| Multierror.RenderLength | multierror.go:54-58 | With two or more errors, the length is the count's digits plus `" errors: "` plus all messages plus one separator fewer than the messages (no trailing separator) |
| Multierror.RenderSnoc | multierror.go:54-58 | Appending one more error to a non-empty aggregate gives the new count, the earlier messages joined, `"; "` and the new message |
| Decimal.FormatDecimal | multierror.go:58 | The `%d` rendering of the count is a non-empty string of decimal digits with no leading zero |
| Decimal.ParseFormat | multierror.go:58 | Parsing the decimal rendering of a count gives the count back |
| Decimal.FormatInjective | multierror.go:58 | Two counts render to the same digits iff they are equal |
| Decimal.LeadingDigitsOf | multierror.go:58 | The leading-digit scan of digits followed by a non-digit returns exactly those digits |
| Strings.JoinLength | multierror.go:58 | The joined string is all parts plus one separator between each neighbouring pair |
| Strings.JoinPartAt | multierror.go:58 | Each part appears verbatim at its offset in the joined string |
| Strings.JoinSeparatorAt | multierror.go:58 | Exactly one separator stands between consecutive parts |
| Strings.JoinSnoc | multierror.go:58 | Joining one more part adds the separator and that part at the end |
| Examples.Phases | example_test.go:17-46 | Each of three nil appends answers nil and `Err` stays nil; each of the next three appends (d, e, then nil) answers the same non-nil aggregate; afterwards `Err` = [d, e] and the message is `"2 errors: d; e"` |
| Examples.Primary | multierror_test.go:89-119 | A new aggregate's `Err` is nil; on it, `Append(nil)` and `Err` answer nil; appending an error answers non-nil; one error renders as its message, two as `"2 errors: m; m"` |
| Examples.Alternate | multierror_test.go:122-138 | After two appends the aggregate holds two errors and renders as `"2 errors: a; b"` |
| Examples.Convert | multierror_test.go:38-65 | An aggregate converted from three errors renders as `"3 errors: a; b; c"` and converts back to the same three errors, in order |

## Left out

- Go's interface-nil semantics are not modelled: a non-nil pointer or slice value stored in an `error` interface compares non-nil even when the aggregate is empty, which is why `Err` (multierror.go:14-19) and `Append` (multierror.go:27) return a literal `nil` rather than the empty aggregate. Presence is modelled only through the `Option` results of `Err` and `Append`.
- A nil `*MultiError` receiver is not modelled. In Go it panics when `Append` reads through it: at line 25 for a nil error, and at line 34 for a non-nil one, despite the comment at line 33. `this` is never null in Dafny, so that path cannot be represented, and the branch at multierror.go:32-35 is not a separate case. A non-nil receiver whose slice is nil or empty takes the ordinary append at line 38.
- The `Error()` methods of the underlying errors are foreign code. Each error is its message string, so calling `Error()` on it is the identity.
- `fmt.Sprintf`'s `%d` and `strings.Join` are standard-library code that is not part of this model. They are modelled by `Decimal.FormatDecimal` (Go's `len` is never negative, so only non-negative counts occur) and by `Strings.Join`.
- `fmt.Println` output and the checking of Go `Example` output are I/O. The documented outputs are instead stated as the `Examples` postconditions.
- Multierror.MultiError.constructor: takes messages, so a converted slice cannot hold a nil entry. In Go, `MultiError([]error{nil})` is accepted. Its `Err()` is non-nil (multierror.go:15-18), `Append(nil)` on it answers non-nil (multierror.go:29-30), and `Error()` panics calling a method on the nil entry (multierror.go:52 for one entry, multierror.go:56 for more). The model covers only conversions of non-nil errors.
- The slice conversions `MultiError(myErrors)` and `[]error(multiErr)` are identity casts. They are modelled by the constructor and by reading the `errs` field.
- doc.go contains only package documentation.
- Go's `int` width is not modelled. Counts are unbounded `nat`, since no aggregate can hold 2^63 errors.
