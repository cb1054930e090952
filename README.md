# LPG gas automation CLI: response transforms, prompt rules and the task loop

This project models two parts of a command-line tool for merchants who sell subsidised 3 kg LPG through the MyPertamina merchant portal. The rest of the tool drives a headless browser against the portal.

- **Response transforms** (`src/lib/dto.ts`). These map the portal's intercepted response bodies to the tool's domain records: the session bundle (`Auth`), `Customer`, `Profile`, `Product` and `Order`. `AuthDto` and `RevertAuthDto` are the serialise/deserialise pair. `setupAuth` (`src/lib/my-pertamina.ts`) writes `RevertAuthDto`'s result into the page's local storage to bring a stored session back. The other transforms are projections. `OrderDto` also lowers the customer's quota locally by the ordered quantity.
- **Prompts and task dispatch** (`src/lib/inquirer.ts`). This covers the validators of the phone-number, PIN and national-ID prompts (regular expressions `^\d{10,13}$`, `^\d{6}$`, `^\d{16}$`). It also covers the quantity prompt's bounds and default, the two customer-type choices, and `processTask` with its handlers. It ends with the main loop of `src/index.ts`, which keeps asking for tasks until one returns false.

Modules: `Types` (domain records), `Responses` (response bodies), `Constants` (the fixed product), `Dto`, `DigitPattern` (the regular expressions' shape and a matcher for it), `Inquirer`, `TaskLoop`.

Modelling decisions:
- A cookie is an opaque type. The product's identifier and name are constants whose values are left open.
- The portal's `number` fields are unbounded integers.
- A JavaScript `\d` is the ASCII class `[0-9]`. Without the `m` flag, `^` and `$` anchor at the ends of the whole string. `DigitPattern.MatchesFrom` matches `\d{lo,hi}$` one character at a time, and a lemma shows it accepts exactly the all-digit strings of `lo` to `hi` characters.
- The session file `public/data/auth.json` is an `Option<Auth>`. Every handler except login and exit reads it before calling the portal, with no error handling. When the file is missing, that read throws out of `processTask` and out of the loop. The model calls that result `Threw`.
- What a task's portal workflow gives is a parameter (`Outcome`), because the workflows drive the browser. It is one of three things: a domain value, an `Error` value with its message, or an exception that escapes the workflow (`Raised`). An escaping exception also ends the loop with `Threw`.
- `dto.ts` uses types that `types.ts`, `responses.ts` and `constants.ts` do not define in this revision. The records `Customer`, `Product`, `Profile` and `Order`, the response `TransactionResponse` and the product constants are built from the fields `dto.ts` reads and writes. `CustomerType` is a string: `dto.ts` casts each portal type name to it without checking.
- In `my-pertamina.ts` as it stands in this revision, `login(page, phoneNumber, pin)` returns `Auth | number`, and `getProfile`, `getProduct`, `verifyCustomer` and `addOrder` do not exist. `inquirer.ts` calls these functions with other signatures and tests their results with `instanceof Error`. The model follows `inquirer.ts`, which expects a failing workflow to return an `Error` value. That `logout` has no `catch`, so on failure it throws; so do the navigation and wait steps of that `login`. A rejected login returns the HTTP status as a number instead (`src/lib/my-pertamina.ts:50-51`). `loginTask` mistakes that number for a session, because it is not an `Error`, and `logAuth` then throws on it before `auth.json` is written. Either way the program ends and no session file is written. The model admits both kinds of failure, and a `Raised` outcome ends the program there.
- A batch runner with retry after a rate limit, and a quota check `quantity <= quota` when an order is placed, are not in the code modelled here. `OrderDto` does no bound check. The only quantity bounds in this code are the prompt's, 1 to 20, so a quantity of 25 never reaches the transform. A quantity the prompt accepts can still exceed the quota, and `Inquirer.OrderQuotaUnchecked` shows the quota going negative.

## Model

| member | source | states |
|---|---|---|
| Dto.AuthRoundTrip | src/lib/dto.ts:14-37 | Building a session from a login response and then serialising it gives back the response body, field for field. |
| Dto.AuthReverseRoundTrip | src/lib/dto.ts:14-37 | A session rebuilt from its own serialised body and its own cookies equals the original, whatever the envelope's success, message and code. |
| Dto.AuthKeepsCookies | src/lib/dto.ts:14-17 | The session's cookie list is the given list: same elements, same order. The session depends on nothing of the response but its body. |
| Dto.AuthDtoInjective | src/lib/dto.ts:14-26 | Two sessions are equal exactly when they were built from equal login bodies and equal cookie lists. |
| Dto.RevertAuthInjective | src/lib/dto.ts:28-37 | Two sessions serialise to the same body exactly when their tokens and all five settings flags agree. Only the cookies are not serialised. |
| Dto.CustomerDto | src/lib/dto.ts:39-49 | The customer's types list has as many entries as the response's customer types, in the same order, each the name of its entry. |
| Dto.CustomerFields | src/lib/dto.ts:39-49 | The customer's identifier is the submitted one, not the response's. Its name is the response's name, and its quota is the parent figure of the remaining quota. Changing only the response's own identifier changes nothing. |
| Dto.CustomerTypesMembership | src/lib/dto.ts:47 | A type name is in the customer's list exactly when some customer type in the response has that name. Nothing is filtered. |
| Dto.ProfileFields | src/lib/dto.ts:51-70 | Each person field, each location field and the agent is copied unaltered from its response field. The district comes from `ditrictName`, the village from `villageName`, the zip code from `zipcode` and the agent from `agen`. |
| Dto.ProfileIgnoresStoreFields | src/lib/dto.ts:51-70 | Two profile responses that differ only in store, registration, terminal and merchant fields give the same profile. |
| Dto.ProductFields | src/lib/dto.ts:72-81 | The product's identifier, name, available stock and redeemed stock are the response's, unaltered. |
| Dto.OrderFields | src/lib/dto.ts:83-101 | The order's identifier is the transaction identifier. The customer's identifier and name are echoed. The product is the fixed product with the ordered quantity. |
| Dto.OrderQuota | src/lib/dto.ts:93 | The remaining quota plus the quantity is the old quota. It is non-negative exactly when the quantity does not exceed the quota. A positive quantity lowers it. |
| Inquirer.OrderQuotaUnchecked | src/lib/inquirer.ts:112-119 | The quantity prompt accepts 15, and the order transform (dto.ts:93) then leaves a quota of 10 at -5. Against a quota of 10, exactly the accepted quantities 11 to 20 drive the quota negative. |
| DigitPattern.MatchesFromSpec | src/lib/inquirer.ts:73 | The matcher for `\d{lo,hi}$` accepts a string exactly when it has between lo and hi characters and every one is an ASCII digit. |
| Inquirer.ValidatePhoneNumber | src/lib/inquirer.ts:72-79 | The phone number is accepted exactly when it is 10 to 13 ASCII digits and nothing else. Otherwise the validator returns the hint about country prefixes and length. |
| Inquirer.ValidatePin | src/lib/inquirer.ts:87-93 | The PIN is accepted exactly when it is 6 ASCII digits. Otherwise the validator returns the 6-digit hint. |
| Inquirer.ValidateNationalityId | src/lib/inquirer.ts:101-108 | The national ID is accepted exactly when it is 16 ASCII digits. Otherwise the validator returns the 16-digit hint. |
| Inquirer.AskForOrderQuantity | src/lib/inquirer.ts:112-119 | An answer is taken exactly when it is empty or lies in 1..20. An empty answer gives the default 1, and a typed answer is taken as typed. |
| Inquirer.AskForCustomerType | src/lib/inquirer.ts:122-131 | The answer is 'Rumah Tangga' or 'Usaha Mikro'. It is 'Rumah Tangga' when the default is taken, and otherwise the listed choice picked. |
| Inquirer.CustomerTypeChoiceSet | src/lib/inquirer.ts:125-129 | There are exactly two distinct choices, 'Rumah Tangga' and 'Usaha Mikro', and the default is the first. |
| Inquirer.LoginTask | src/lib/inquirer.ts:133-158 | Login throws exactly when its workflow throws. Otherwise it returns true on both branches, storing the new session on success and leaving the session file alone on an error value. |
| Inquirer.LogoutTask | src/lib/inquirer.ts:160-188 | Logout throws exactly when the session file is missing or its workflow throws. Otherwise it returns true on both branches and deletes the session file only on success. |
| Inquirer.ReportingTask | src/lib/inquirer.ts:190-290 | The behaviour the profile, product, verify and order tasks share: throw exactly when the session file is missing or the workflow throws, otherwise return true on both branches and leave the file as it was. |
| Inquirer.GetProfileTask | src/lib/inquirer.ts:190-211 | Same as `ReportingTask`: it throws exactly when the session file is missing or its workflow throws. Otherwise it returns true, success or not, and leaves the file as it was. |
| Inquirer.GetProductTask | src/lib/inquirer.ts:213-234 | Same as `ReportingTask`: it throws exactly when the session file is missing or its workflow throws. Otherwise it returns true, success or not, and leaves the file as it was. |
| Inquirer.VerifyCustomerTask | src/lib/inquirer.ts:236-259 | Same as `ReportingTask`: it throws exactly when the session file is missing or its workflow throws. Otherwise it returns true, success or not, and leaves the file as it was. |
| Inquirer.AddOrderTask | src/lib/inquirer.ts:261-290 | Same as `ReportingTask`: it throws exactly when the session file is missing or its workflow throws. Otherwise it returns true, success or not, and leaves the file as it was. |
| Inquirer.ExitTask | src/lib/inquirer.ts:292-300 | Exit returns false and leaves the session file as it was. |
| Inquirer.ProcessTask | src/lib/inquirer.ts:302-324 | When it returns, the result is true exactly for the menu's tasks other than EXIT. It throws exactly when a session-reading task finds no session file, or when the task's workflow throws. A value outside the menu returns false and changes nothing. Only login and logout change the session file. |
| TaskLoop.RunTaskLoop | src/index.ts:20-24 | The loop's turn count, final session file and reason for stopping are those of the specification function `Run`. |
| TaskLoop.RunStopsAtFirstStop | src/index.ts:20-24 | Every turn before the last one taken kept the loop running. The loop crashes exactly when the last task, run on the session file as it then stands, throws, and a crash leaves the session file as it stood before that turn. It exits exactly when that task returns stop. When the script runs out, every task kept the loop running. |
| TaskLoop.RunEndsByFirstStop | src/index.ts:20-24 | A turn whose task says stop at position k ends the loop after at most k+1 turns, before the script runs out. |
| TaskLoop.RunSessionChangesOnlyByLoginOrLogout | src/index.ts:20-24 | A run with no login or logout task leaves the session file as it found it. |

## Left out

- Browser automation: navigating, injecting cookies, hydrating local storage, filling forms, clicking and waiting for matching responses (`src/lib/my-pertamina.ts`, `src/lib/puppeteer.ts`, `src/lib/playwright.ts`). These are calls into Puppeteer and Playwright. A workflow's result is a parameter instead.
- File I/O in the handlers (`mkdirSync`, `writeFileSync`, `readFileSync`, `JSON.parse`, `unlinkSync`) is reduced to the presence and content of the session file. A file that exists but does not parse is not modelled.
- Spinners, console output, `src/lib/logger.ts` and the prompts' rendering are left out because they are output only.
- Re-prompting is described but not modelled. A prompt asks again until its validator accepts, and that loop lives in the prompt library. The model gives one answer's verdict.
- `askForTask`'s menu is modelled as its list of task values. Its separator entry cannot be selected.
- Inquirer.LogoutTask, Inquirer.LoginTask, Inquirer.ReportingTask and Inquirer.ProcessTask: whether a failing workflow returns an `Error` value (`Failure`) or throws (`Raised`) is a parameter. The `instanceof Error` tests at src/lib/inquirer.ts lines 139, 167, 196, 219, 244 and 275 expect an error value. `logout` in `my-pertamina.ts` throws instead. A rejected login in that file returns a status number, on which `logAuth` throws before the session file is written. So with that file a failed logout or login ends the program. The model does not decide which of the two the portal code produces.
- Inquirer.AskForOrderQuantity: models the answer as an integer. How the number prompt treats fractional or non-numeric input is the library's business and is not modelled.
- TaskLoop.RunTaskLoop: the real loop waits for input forever. The model runs over a finite script of turns and stops when the script runs out.
- Response fields typed `any`, or made only of `any` fields, are not modelled: `verifications`, `mid`, `bank` and `myptmActivationStatus`. `bank` is a record of three `any` fields. They are left out because no transform reads them and their shape is unknown.
- Floating-point `number` values: quotas, stock and prices are integers here.
- `src/lib/utils.ts` (`delay` is a timer; `randomIntFromInterval` uses randomness), `src/lib/constants.ts` URLs and timeouts, `src/models/custome-error.ts`, `src/lib/args.ts` and the build script contain no logic to model.
- The batch runner with rate-limit retries, the session-expiry check and the local quota check before an order do not appear in the code modelled here, so they are not modelled.
