# Contact-form backend: a Dafny model

This project models the decision logic of a small Symfony backend that
serves one contact form. It covers four pieces:

- **The contact endpoint** `POST /api/mail/contact` (`ContactEndpoint`). The endpoint
  rate-limits by client IP, decodes the JSON body, validates it, and either queues
  one mail job (202) or answers 429 or 400.
- **The constraint set of the submitted data object** (`ContactValidation`). The email
  must be non-blank and well-formed. The message must be non-blank and 10 to 2000
  characters long.
- **The CORS response hook** (`Cors`). It stamps the fixed CORS headers of section 3.2
  of the WHATWG Fetch Standard on every response. An `OPTIONS` request becomes a
  200 and also gets `Access-Control-Allow-Credentials`.
- **The post-deploy HTTP script** (`EnvLocal`, `PostDeploy`). It has a token gate, a
  check for `bin/console`, and a rewrite of `.env.local` to production. It then runs
  the maintenance commands, collecting their failures, and returns a JSON answer
  that is 200 or 500.

The framework services are inputs of the model:
- the rate limiter's window policy is the `admitted` verdict;
- `json_decode` is the already decoded body (`JsonDecoding`);
- the Email constraint's address syntax check is the oracle `isEmail`;
- the shell is a function from a command line to its output lines and return code;
- the file system is a record of what the script asks of it.

State that the source changes in place is held by classes:
- the limiter's storage, with the number of `consume` calls per key;
- the message bus, with the messages dispatched so far;
- the response, with its status code and header bag.

The deploy script's `$output` and `$errors` arrays are passed by reference, so
they are in and out parameters of `RunCommand`.

Behaviour worth knowing, all proved:
- A blank message gets two violations, "blank" and then "too short". The
  controller's field map keeps the last one, so the client sees the too-short
  text (`BlankMessageReportsTooShort`).
- The deploy script tests for `APP_ENV=prod` as a substring. So
  `APP_ENV=production`, or a commented-out `#APP_ENV=prod`, leaves `.env.local`
  untouched (`SubstringMarkerSkipsRewrite`).
- When the file is rewritten, the default two lines are put in front exactly
  when no line started with `APP_ENV=` (`NormalizeEnvRewrite`).
- The line rewrite of `preg_replace('/^APP_ENV=.*/m', …)` replaces the whole line
  up to `\n`. A trailing `\r` goes with it.

## Model

| member | source | states |
|---|---|---|
| `ContactValidation.Validate` | src/DTO/ContactMailDTO.php:9-15 | Every violation is about `email` or `message`. There is an email violation iff the email is blank or fails the format check. There is a message violation iff the message is blank, shorter than 10 or longer than 2000 characters. There are no violations iff the submission is valid. |
| `ContactValidation.BlankEmailReportedOnce` | src/DTO/ContactMailDTO.php:9-11 | A blank email is reported once, as blank (the format check skips the empty string). Every later violation is about the message. |
| `ContactValidation.BlankMessageReportedTwice` | src/DTO/ContactMailDTO.php:13-15 | A blank message ends the list with two violations: blank, then too short. |
| `ContactEndpoint.DtoOf` | src/Controller/ContactMailController.php:43-45 | A missing or null `email`/`message` member gives the empty string. A string member is taken as is. |
| `ContactEndpoint.ErrorMapLastWins` | src/Controller/ContactMailController.php:50-53 | The error map has a key exactly for each property with a violation. Its value is the message of the last violation for that property. |
| `ContactEndpoint.BuildErrorMap` | src/Controller/ContactMailController.php:50-53 | The `foreach` loop builds exactly the error map specified by `ErrorMap`. |
| `ContactEndpoint.Handle` | src/Controller/ContactMailController.php:28-64 | If the limiter rejects: 429 "Too many requests", no dispatch, whatever the body. If the JSON is invalid: 400 "Invalid JSON", no dispatch. 202 `accepted` exactly when the decoded submission is valid, with exactly one message carrying the parsed email and message. Otherwise nothing is dispatched. The status is 202, 400 or 429. |
| `ContactEndpoint.ValidationErrorsByField` | src/Controller/ContactMailController.php:47-57 | A validation failure answers 400 with a non-empty field map. Its keys are exactly the properties with a violation, so only `email` or `message`. Each value is the last violation's message for that field. |
| `ContactEndpoint.BlankMessageReportsTooShort` | src/Controller/ContactMailController.php:47-57 | An empty message is answered with 400, and `errors.message` is the too-short message. |
| `ContactEndpoint.ShortMessageRejected` | src/Controller/ContactMailController.php:47-57 | `{"email":"a@b.com","message":"short"}` gives 400 with exactly `{message: too short}` and no dispatch. |
| `ContactEndpoint.RateLimiterFactory.Consume` | src/Controller/ContactMailController.php:28-29 | A `consume` call adds one to the key's count of calls, leaves every other key alone, and returns the policy's verdict. The count is of calls, accepted or not, not of the tokens the policy takes. |
| `ContactEndpoint.MessageBus.Dispatch` | src/Controller/ContactMailController.php:60 | Dispatching appends the message to the bus. |
| `ContactEndpoint.ContactMailController.constructor` | src/Controller/ContactMailController.php:17-19 | The controller keeps the limiter factory it is given. |
| `ContactEndpoint.ContactMailController.Invoke` | src/Controller/ContactMailController.php:22-65 | Every call records exactly one `consume` call for the client-IP key, including calls the policy rejects. The response is that of `Handle`. The bus grows by exactly the messages `Handle` dispatches. |
| `Cors.CorsSubscriber.constructor` | src/EventSubscriber/CorsSubscriber.php:13-16 | A null origin gives `http://localhost:3000`. Any other origin is kept. |
| `Cors.CorsSubscriber.OnKernelResponse` | src/EventSubscriber/CorsSubscriber.php:25-44 | For OPTIONS the status becomes 200; otherwise it is unchanged. The header map becomes `CorsHeaders` of the old one. The mixed-case names are stored under their lower-case keys. |
| `Cors.ResponseHeaderBag.Set` | src/EventSubscriber/CorsSubscriber.php:35 | `set` replaces the values under the normalised name with the one value given. Other entries are unchanged. |
| `Cors.HttpResponse.SetStatusCode` | src/EventSubscriber/CorsSubscriber.php:32 | The status code becomes the one given. |
| `Cors.CorsHeadersPresent` | src/EventSubscriber/CorsSubscriber.php:35-39 | After the hook, Allow-Origin is the configured origin. Allow-Methods, Allow-Headers, Expose-Headers and Max-Age carry their fixed values, each as their only value. |
| `Cors.CredentialsOnlyForPreflight` | src/EventSubscriber/CorsSubscriber.php:41-43 | Credentials `true` is set for OPTIONS. A non-OPTIONS response gains no credentials header: it has one afterwards iff it had one before, with the same value. |
| `Cors.OtherHeadersUntouched` | src/EventSubscriber/CorsSubscriber.php:35-43 | Any header other than the six is present afterwards iff it was before, with the same values. |
| `Cors.DecorationIdempotent` | src/EventSubscriber/CorsSubscriber.php:31-43 | Running the hook twice gives the same headers and status as running it once. |
| `Cors.HeaderKey` | src/EventSubscriber/CorsSubscriber.php:35-42 | The header bag's key keeps the name's length. ASCII upper-case letters become lower case, `_` becomes `-`, and every other character is kept. |
| `Cors.HeaderKeyIdempotent` | src/EventSubscriber/CorsSubscriber.php:35-42 | Header name normalisation is idempotent. |
| `Cors.CorsKeysDistinct` | src/EventSubscriber/CorsSubscriber.php:35-42 | The six names the hook sets are stored under six distinct keys, so no `set` overwrites another. |
| `EnvLocal.UnlinesLines` | public/post-deploy.php:74-75 | Joining the lines of a text gives the text back. This is the basis of the line-wise reading of `/^…/m`. |
| `EnvLocal.LinesUnlines` | public/post-deploy.php:74-75 | Splitting joined lines that hold no `\n` gives those lines back. So the second substitution sees the lines the first one produced. |
| `EnvLocal.ReplaceLinesLines` | public/post-deploy.php:74-75 | A multi-line substitution whose replacement holds no `\n` rewrites each line on its own and keeps the line structure. |
| `EnvLocal.RewrittenLines` | public/post-deploy.php:74-75 | The rewrite keeps the number of lines. An `APP_ENV=` line becomes `APP_ENV=prod`. An `APP_DEBUG=` line becomes `APP_DEBUG=0`. All other lines are unchanged. |
| `EnvLocal.EnvLineGivesProd` | public/post-deploy.php:74-76 | If some line started with `APP_ENV=`, the rewritten text contains `APP_ENV=prod`. |
| `EnvLocal.NoEnvLineNoProd` | public/post-deploy.php:74-76 | If no line started with `APP_ENV=` and the text lacked the marker, the rewritten text still lacks it. |
| `EnvLocal.MarkerNotIntroduced` | public/post-deploy.php:75-76 | Replacing lines by `APP_DEBUG=0` never creates `APP_ENV=prod` in a text that lacked it, not even across line breaks. |
| `EnvLocal.NormalizeEnvRewrite` | public/post-deploy.php:72-79 | For content without `APP_ENV=prod`, the written content is the rewrite. The two default lines are prepended exactly when no line started with `APP_ENV=`. The written content always contains `APP_ENV=prod`. |
| `EnvLocal.EnvLocalWrite` | public/post-deploy.php:67-81 | A missing file is written with exactly `APP_ENV=prod\nAPP_DEBUG=0\n`. Content containing `APP_ENV=prod` is not rewritten. |
| `EnvLocal.EnvLocalWriteSettles` | public/post-deploy.php:66-81 | Whatever the step writes, a second run leaves alone. |
| `EnvLocal.SubstringMarkerSkipsRewrite` | public/post-deploy.php:72 | `APP_ENV=production` and `#APP_ENV=prod` stop the rewrite, because the check is a substring test. |
| `PostDeploy.TokenPrecedence` | public/post-deploy.php:12-13 | The query `token` takes precedence over `X-Deploy-Token`. The environment variable takes precedence over the server variable. |
| `PostDeploy.TokenGate` | public/post-deploy.php:16-21 | An unset, empty or `"0"` required token disables the gate. Any other required token rejects exactly the provided tokens that are not identical to it. |
| `PostDeploy.RunCommand` | public/post-deploy.php:40-48 | It appends `Exécution: <cmd>`, then the command's lines in order. It appends exactly one error line iff the return code is non-zero. It returns true iff the code is 0. |
| `PostDeploy.FailureNotesEmpty` | public/post-deploy.php:44-46 | The collected error list is empty iff every command returned 0. It has at most one line per command. |
| `PostDeploy.FailureNotesSnoc` | public/post-deploy.php:44-46 | Running one more command adds its error line iff it failed. |
| `PostDeploy.LoggedSnoc` | public/post-deploy.php:41-43 | A command that has run has its execution line in the output. Earlier lines stay. |
| `PostDeploy.EnsureProductionEnv` | public/post-deploy.php:66-81 | It writes `EnvLocalWrite` of the existing file. It adds the "creating" line for a missing file, the "updating" line when it rewrites, and nothing otherwise (`EnvProgressLines`). |
| `PostDeploy.RunStep` | public/post-deploy.php:85-86 | Progress lines, then `runCommand`: the output gets exactly those lines, the execution line and the command's output. The error list stays that of the commands run so far, and every command run so far stays logged. |
| `PostDeploy.RunUpkeep` | public/post-deploy.php:89-113 | Migrations, cache clear and warm-up run in that order, each whatever the previous one returned. The output gets exactly `UpkeepLines`: the permissions and database lines, then for each command its execution line and output, with the cache lines before their commands. The errors are those of the failed commands and every command is logged. |
| `PostDeploy.RunMaintenance` | public/post-deploy.php:83-113 | It runs composer install (only with `composer.json` and no `vendor`), then migrations, cache clear and warmup, in order, whatever the earlier ones returned. The output gets exactly `MaintenanceLines`: the composer line, execution line and output when install is needed, then `UpkeepLines`. The errors are those of the failed commands, and every command is logged. |
| `PostDeploy.Respond` | public/post-deploy.php:118-133 | No errors gives 200 with the success message and the done line appended. Otherwise it is 500 with the failure message, the error list and the output. |
| `PostDeploy.Deploy` | public/post-deploy.php:12-133 | A rejected token gives 403 with the token error; nothing runs and nothing is written. A missing `bin/console` gives 500 with its error and the two start lines; nothing runs and nothing is written. Otherwise `.env.local` gets `EnvLocalWrite` and all planned commands run. The output is exactly the start lines, the `.env.local` line, `MaintenanceLines` and, on success, the done line. The result is 200 with the success message iff every command succeeded, else 500 with the failure message and the error list. |

## Left out

- Symfony's validator, Email constraint, mailer, Twig rendering and Messenger routing are framework code that is not part of this model. The Email syntax check is the `isEmail` oracle. The violation messages are Symfony's English defaults written as constants.
- The Length constraint's check for a valid UTF-8 charset is left out: a Dafny string is always a sequence of code points, and its length is the character count.
- `ContactEndpoint.RateLimiterFactory.Consume`: the window policy (limit and interval) is configured outside the modelled files. Its verdict is a parameter, so the model does not capture a window resetting over time.
- JSON members that are neither strings nor null (numbers, booleans, arrays) are not modelled. PHP would coerce them to a string or fail with a type error on the typed property. `JsonValue` has only null and string.
- A top-level JSON value that is not an object is modelled as an empty member map, since `??` then yields `''` for both fields.
- `Cors.ResponseHeaderBag.Set`: the special treatment of `set-cookie` and `cache-control` and the bag's record of the original name casing are not modelled. None of them arise for the CORS names.
- `Cors.HttpResponse.SetStatusCode`: the status text that comes with the code is not modelled.
- The request method is taken as the request reports it (`getMethod`). Method override is not modelled.
- `PostDeploy.TokenSources`: a `token` query parameter given as an array is modelled like a wrong string. Either way it is not identical to the required token, so the gate decides the same.
- Deploy script I/O: `exec`, `mkdir`, `chmod`, `putenv`, `set_time_limit`, `chdir`, headers and `echo`, `error_reporting` and `ini_set` are left out. So are failures of `file_get_contents` and `file_put_contents`. Commands are results of the `shell` function, and files are existence flags plus the content written.
- The JSON encoding of the answers (pretty printing, unescaped Unicode) and the `Content-Type` header are not modelled. `DeployBody` holds the answer's fields, and `success` is implied by its constructor.
- The mail handler (`src/MessageHandler/SendContactMailHandler.php`), the mail service (`src/Service/MailService.php`) and the bundle list (`config/bundles.php`) are delegation and configuration. `src/Message/SendContactMailMessage.php` is absorbed as the datatype `SendContactMailMessage`.
- The concurrency the framework provides (parallel requests, the asynchronous worker) is not modelled. Each invocation is one sequential call.
