# Simple password generator: a Dafny model

This project models the two functions of a small password generator
(`generator.py`):

- `get_allowed_chars` turns four boolean flags into an ordered list of character
  classes. The flags request uppercase letters, lowercase letters, digits and
  punctuation. If no flag is set, the list is lowercase then uppercase.
- `generate_password` validates its arguments. The four flags must be strict
  booleans. The length must be a strict int, and it must be positive. It then
  builds the password one character at a time. For each position, a secure
  random source picks a class index and then a character index in that class.

Everything is in `generator.dfy`, module `PasswordGenerator`.

- The four class strings are literal constants, equal to Python's
  `string.ascii_uppercase`, `ascii_lowercase`, `digits` and `punctuation`.
- Each class string is proved to hold exactly the characters a code-range
  predicate describes.
- `SelectedClasses` is the specification of the selection. It filters the
  canonical order upper, lower, digits, punctuation by the flags, with the
  letters fallback when no flag is set.
- `GetAllowedChars` builds the list by successive appends, as the source does,
  and is proved equal to `SelectedClasses`.
- `GeneratePassword` takes Python arguments as `PyValue`
  (`PyBool | PyInt | PyOther`). This reproduces the `type(x) is bool` and
  `type(x) is int` checks. A Python `True` passed as the length is a `PyBool`,
  so it is rejected like any other non-int.
- Errors are `Err(TypeError)` or `Err(LengthError)`.
- The random source is a `SecureRandom` object holding the sequence of answers
  the operating system gives, with a cursor `pos` of answers consumed.
  `RandInt` and `Choice` each consume one answer, as `randint` and `choice`
  each make one draw. `GeneratePassword` takes the object as a parameter.
- The precondition asks only what `SystemRandom` guarantees: when the arguments
  are valid, the next `2 * length` answers are pairs of a class index and a
  position in that class. `randint` is inclusive, so the class index is in
  `[0, len(li) - 1]`.

The source raises a bare `Exception` for a non-positive length
(generator.py:61); the model calls that error kind `LengthError`.

## Model

| member | source | states |
|---|---|---|
| `PasswordGenerator.GetAllowedChars` | generator.py:73-108 | the appended list equals the specification `SelectedClasses`; with every flag false it is exactly `[lowercase, uppercase]` |
| `PasswordGenerator.SelectedClassesRequested` | generator.py:99-106 | when some flag is set, the list has one entry per true flag, contains a class if and only if its flag is true, and is in the order upper, lower, digits, punctuation |
| `PasswordGenerator.SelectedClassesBounds` | generator.py:91-106 | the list always has 1 to 4 entries, no class twice, and every entry is a non-empty canonical class |
| `PasswordGenerator.Filter` | generator.py:99-106 | keeping the flagged classes yields no more entries than there are classes, and only classes from the input |
| `PasswordGenerator.FilterLength` | generator.py:99-106 | the number of kept classes equals the number of true flags |
| `PasswordGenerator.FilterMember` | generator.py:99-106 | a class is kept if and only if it stands at a position whose flag is true |
| `PasswordGenerator.FilterRanked` | generator.py:99-106 | keeping a subset of classes preserves the canonical order |
| `PasswordGenerator.CanonicalOrderRanked` | generator.py:99-106 | the four classes are distinct and stand at canonical positions 0 to 3 |
| `PasswordGenerator.UppercaseContents` | generator.py:100 | a character is in the uppercase class if and only if it is in `A`..`Z` |
| `PasswordGenerator.LowercaseContents` | generator.py:102 | a character is in the lowercase class if and only if it is in `a`..`z` |
| `PasswordGenerator.DigitsContents` | generator.py:104 | a character is in the digit class if and only if it is in `0`..`9` |
| `PasswordGenerator.PunctuationContents` | generator.py:106 | a character is in the punctuation class if and only if it is printable non-blank ASCII that is neither a letter nor a digit |
| `PasswordGenerator.CanonicalClassContents` | generator.py:94-106 | each class string holds exactly the characters of its code-range description, and the sizes are 26, 26, 10 and 32 |
| `PasswordGenerator.SelectedCharAdmissible` | generator.py:63-68 | every character of every selected class is admissible for the flags: a letter when no flag is set, otherwise a character of a requested class and of no unrequested class |
| `PasswordGenerator.AdmissibleSelectable` | generator.py:93-106 | conversely, every admissible character occurs in some selected class |
| `PasswordGenerator.SelectedClassesUnfolded` | generator.py:99-106 | when some flag is set, the selection is one conditional entry per flag, upper, lower, digits, punctuation, in that order |
| `PasswordGenerator.SelectedClassesExample` | generator.py:99-106 | upper case and digits requested give exactly `[uppercase, digits]` |
| `PasswordGenerator.SecureRandom.constructor` | generator.py:64 | a fresh random source over the given answers, with none consumed |
| `PasswordGenerator.SecureRandom.RandInt` | generator.py:68 | `randint` returns the next answer, assumed in its inclusive range, and consumes exactly one answer |
| `PasswordGenerator.SecureRandom.Choice` | generator.py:68 | `choice(s)` returns the character of `s` at the next answer and consumes exactly one answer |
| `PasswordGenerator.GeneratePassword` | generator.py:28-70 | a non-boolean flag gives a type error before the length is looked at; then a non-int length gives a type error; then a length of 0 or less gives a length error; on every error the random source is left untouched; otherwise the password has exactly `length` characters, exactly `2 * length` answers are consumed, character k is `classes[ci_k][chi_k]` where `ci_k` is the k-th `randint` answer and `chi_k` the `choice` answer after it (class first, then character), and every character is admissible for the flags |

## Left out

- The secure random source (`SystemRandom`, `randint`, `choice`) is a call into the operating system. It is replaced by a `SecureRandom` object over an injected sequence of answers. The source creates that object inside `generate_password` (generator.py:64); the model takes it as a parameter, so the caller can see how many answers were consumed. The model does not capture how `choice` turns entropy bits into an index.
- Distribution properties are not modelled. These include the uniformity of each draw and the resulting bias toward characters of small classes. A verifier cannot state them about an abstract draw sequence.
- The exact Python exception classes are reduced to two error kinds. The source raises a bare `Exception` for a short length.
- `GetAllowedChars` takes `bool` flags. The source compares flags with `is True` and `is False`. Called directly with non-booleans (its only caller never does this), the Python function returns only the classes whose flag `is True`, and an empty list when none is `True` and not all are `False`. This direct-call case is not modelled.
- Python's `string` module is not part of this model. Its four constants are inlined as literals.
