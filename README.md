# Auth form validation

A model of the client-side validation of the authentication forms of a
gamified IT-skills learning front-end. `types/auth.ts` declares four zod
schemas, one per form:

- **register**: a name of 2 to 50 characters, a well-formed e-mail, a
  password of at least 8 characters that matches
  `/^(?=.*[a-z])(?=.*[A-Z])(?=.*\d)/`, and a confirmation equal to the
  password (an object-level `refine` that reports on `confirmPassword`);
- **login**: a well-formed e-mail, a non-empty password and an optional
  `remember` flag;
- **forgot-password**: a well-formed e-mail;
- **reset-password**: the register schema's password and confirmation rules.

Each schema turns a form into a set of issues (a field and a message). A form
is accepted when that set is empty.

The model has four modules:

- `JsString` (`js_string.dfy`) covers the JavaScript string semantics the
  checks rely on. `Length` is `s.length`, counted in UTF-16 code units, which
  is what zod's `min` and `max` compare, so a character outside the Basic
  Multilingual Plane counts twice. `FirstLine` is the text before the first
  ECMAScript line terminator (LF, CR, U+2028, U+2029).
- `PasswordPattern` (`password_pattern.dfy`) models the strength regex. It has
  no flags, so `^` anchors only at index 0 and `.` never matches a line
  terminator. Each lookahead `(?=.*X)` is modelled by the recursive matcher
  `DotStarThen`. The module proves that the pattern holds exactly when an
  ASCII lower-case letter, an ASCII upper-case letter and an ASCII digit all
  occur before the first line terminator.
- `ZodString` (`zod_string.dfy`) holds the string checks (`min`, `max`,
  `email`, `regex`) and how zod runs a chain of them. Every check is tried,
  and each failing one adds an issue without stopping the others.
- `Auth` (`auth.dfy`) holds the four schemas. Each one is its check chains,
  written field by field as the source writes them, plus the confirmation
  `refine`. `AuthProperties` (`auth_properties.dfy`) states what each schema
  accepts and how the schemas relate to one another.

zod's e-mail check is library-internal and not part of this model. Every
schema function takes it as a parameter `isEmail: string -> bool`, and all the
schemas share it. Messages are a datatype `Message`, and `Auth.Text` gives
their exact wording from the source.

## Model

| member | source | states |
|---|---|---|
| `JsString.Length` | types/auth.ts:5-6 | The length zod compares is at least the number of characters and at most twice it. It is zero only for the empty string. It equals the character count when every character is in the Basic Multilingual Plane, and exceeds it otherwise. |
| `JsString.FirstLine` | types/auth.ts:11 | The result is a prefix of the input with no line terminator. It ends at the input's end or at a line terminator. |
| `PasswordPattern.DotStarThen` | types/auth.ts:11 | Models one lookahead `(?=.*X)` tried at index 0. Either `.*` matches nothing and X matches the first character, or `.` takes a first character that is not a line terminator and the match goes on. Its meaning is stated by `DotStarThenOnFirstLine`. |
| `PasswordPattern.StrongPassword` | types/auth.ts:11 | Models the whole regex with no flags: all three lookaheads succeed at index 0. Its meaning is stated by `StrongPasswordOnFirstLine`. |
| `PasswordPattern.DotStarThenOnFirstLine` | types/auth.ts:11 | A lookahead `(?=.*X)` tried at index 0 succeeds exactly when some character before the first line terminator is in X. |
| `PasswordPattern.StrongPasswordOnFirstLine` | types/auth.ts:11 | The strength regex holds exactly when the first line contains an ASCII lower-case letter, an ASCII upper-case letter and an ASCII digit. |
| `PasswordPattern.StrongSingleLinePassword` | types/auth.ts:11 | For a password with no line terminator, the regex asks only for one character of each of the three classes anywhere in it. |
| `PasswordPattern.AbsentBeforeLineBreak` | types/auth.ts:11 | A class with no member before some line terminator makes its lookahead fail. |
| `PasswordPattern.AcceptsSecret12` | types/auth.ts:11 | The regex accepts "Secret12". |
| `PasswordPattern.RefusesDigitsAfterLineFeed` | types/auth.ts:50 | The regex refuses "Secret\n12", whose digits follow a line feed. |
| `ZodString.Passes` | types/auth.ts:4-11 | Models one check: `.min(n)` passes when the length is ≥ n, `.max(n)` when it is ≤ n, `.email()` when `isEmail` holds, and `.regex(...)` when `StrongPassword` holds. |
| `ZodString.CheckIssue` | types/auth.ts:4-11 | Models one check as zod runs it: no issue when the value passes, otherwise one issue with the check's own message on its own field. Its meaning is stated by `ChainOfOne` and `StringIssuesMeaning`. |
| `ZodString.StringIssues` | types/auth.ts:4-11 | Models a chain: the issues of all its checks together, with no check stopping the others. Its meaning is stated by `StringIssuesMeaning`. |
| `ZodString.StringIssuesMeaning` | types/auth.ts:4-11 | A chain raises, on its own field, exactly one issue per check the value fails, with that check's message. It raises nothing else. |
| `ZodString.NoIssuesIffAllPass` | types/auth.ts:4-11 | A chain raises no issue exactly when the value passes all of its checks. |
| `Auth.Text` | types/auth.ts:3-55 | Gives the exact wording of the seven messages the schemas attach to their checks and to the `refine`. |
| `Auth.TextIsInjective` | types/auth.ts:3-55 | Two messages with the same wording are the same message, so modelling the messages as a datatype loses nothing. |
| `Auth.ConfirmationRefinement` | types/auth.ts:13-16 | Models the `refine`: "Passwords don't match" on `confirmPassword` when the two strings differ, and nothing otherwise. Its meaning is stated by the `confirmPassword` case of the ensures of `RegisterIssues` and `ResetPasswordIssues`. |
| `Auth.RegisterIssues` | types/auth.ts:3-16 | Issues on `name`: "at least 2" iff length < 2, and "must not exceed 50" iff length > 50. Issue on `email` iff `isEmail` rejects it. Issues on `password`: "at least 8" iff length < 8, and the strength message iff the regex fails. Issue on `confirmPassword` iff the two passwords differ. No other issue. |
| `Auth.LoginIssues` | types/auth.ts:29-35 | Issue on `email` iff `isEmail` rejects it. "Password is required" iff the password is empty. No other issue, whatever `remember` holds. |
| `Auth.ForgotPasswordIssues` | types/auth.ts:39-42 | The only possible issue is the invalid-e-mail one on `email`, raised iff `isEmail` rejects the e-mail. |
| `Auth.ResetPasswordIssues` | types/auth.ts:47-55 | "At least 8" iff length < 8. The strength message iff the regex fails. "Passwords don't match" on `confirmPassword` iff the two differ. No other issue. |
| `AuthProperties.RegisterAcceptsIff` | types/auth.ts:3-16 | Register accepts a form exactly when: the name length is in 2..50, the e-mail passes, the password has length ≥ 8 and satisfies the regex, and the confirmation equals the password. |
| `AuthProperties.RegisterNameBounds` | types/auth.ts:4-6 | The `name` field gets no issue exactly when its length is in 2..50. |
| `AuthProperties.RegisterPasswordRule` | types/auth.ts:9-11 | The `password` field gets no issue exactly when the password has length ≥ 8 and satisfies the regex. |
| `AuthProperties.ResetPasswordFieldMatchesRegister` | types/auth.ts:48-50 | For the same password, reset and register report the same issues on `password`. |
| `AuthProperties.ResetConfirmationMatchesRegister` | types/auth.ts:51-55 | For the same two strings, reset and register report the same issues on `confirmPassword`. |
| `AuthProperties.ResetMatchesRegister` | types/auth.ts:47-55 | Reset's issues are exactly register's issues on `password` and `confirmPassword`. So a password pair is accepted by one exactly when it is accepted by the other. |
| `AuthProperties.ResetAcceptsIff` | types/auth.ts:47-55 | Reset accepts exactly when the password has length ≥ 8, satisfies the regex, and equals its confirmation. |
| `AuthProperties.LoginAcceptsIff` | types/auth.ts:29-35 | Login accepts exactly when the e-mail passes and the password is non-empty. |
| `AuthProperties.LoginIgnoresRemember` | types/auth.ts:34 | Changing `remember` (absent, true or false) never changes login's issues. |
| `AuthProperties.LoginHasNoStrengthRule` | types/auth.ts:32-33 | Login accepts the one-letter password "a", which register rejects as both too short and too weak. |
| `AuthProperties.ForgotPasswordAcceptsIff` | types/auth.ts:39-42 | Forgot-password accepts exactly when the e-mail passes. |
| `AuthProperties.SameEmailRule` | types/auth.ts:7-8 | For the same e-mail, register, login and forgot-password report the same issues on `email`. That set is empty exactly when `isEmail` holds. |
| `AuthProperties.RegisterAcceptsExample` | types/auth.ts:3-16 | The form ("Al", a valid e-mail, "Secret12", "Secret12") is accepted. |

## Left out

- The zod e-mail pattern is not part of this model. It lives inside the zod library, which is not shown. `isEmail` stands for it, and all three e-mail checks share it.
- Inputs that are not strings (or, for `remember`, not booleans) are left out. The model assumes every field reaches its schema as a string. A field the user never touched may arrive as `undefined`. That covers every register and forgot-password field, since those forms set no default values, and login's password, since the login form sets a default for `email` only. zod then reports an invalid-type issue on that field; for login's password the model would report "Password is required" instead. On the register form, zod also skips the `refine` in that case. Forgot-password and login have no `refine`. The model does not capture these cases. (An absent `remember` is modelled: it is optional.)
- Issue order, zod's error object, `safeParse`'s returned data, the stripping of unknown keys and the `z.infer` types are left out. Issues are modelled as a set.
- Lone UTF-16 surrogates cannot be represented: a Dafny `char` is a Unicode scalar value. Every other string is modelled, with its length counted in UTF-16 code units.
- `AuthResponse` (types/auth.ts:20-27) and types/user.ts are left out. They are type declarations with no behaviour.
- The pages are left out: landing, navigation bar, footer, layouts, dashboard, profile, challenges, roadmaps, resources, leaderboard, FAQ and explore. They render constant data. The footer reads the wall clock for the year.
- The auth pages' submit handlers are left out. They are I/O with nothing to state:
  - login waits one second, writes a logged-in flag and the e-mail to client storage, shows a message and navigates to the profile page;
  - register logs the form data and shows a success message (its existing-user check always answers "no", and its navigation is disabled);
  - forgot-password logs the e-mail and switches the page to its "email sent" view;
  - login logs nothing on success;
  - on an error, each handler shows an error message and logs the error.
- The resolver glue that passes each form to its schema is left out too.
