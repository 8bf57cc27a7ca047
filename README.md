# skill-sync-client — a Dafny model of its decision logic

skill-sync-client is a Next.js front end. A user keeps a list of skills against an
authenticated backend. Each skill is offered or wanted-to-learn, and may carry a
proficiency and a description. This project models the parts of the client that make
decisions, and proves what they do. The browser and the network are abstract inputs.

- **Session layer** (`lib/auth.ts`, `lib/utils.ts`). Reading the stored token. Building
  the headers of an authenticated request. The one-way reaction to an HTTP 401: the token
  is removed, the window goes to `/auth/login`, and the call rejects with
  "Session expired".
- **Login** (`LoginForm.tsx`, `auth/login/page.tsx`). The form and the page follow two
  different rules. The form refuses an ok reply without a token. The page navigates
  whether or not a token came back.
- **Add-skill popup** (`SkillsPopup.tsx`). Submission first creates the skill, then
  attaches it to the user with the id the create reply returned. The attach request is
  never sent after a failed create.
- **Dashboard** (`dashboard/page.tsx`). Replacing the list only with an array reply.
  Removing an entry after a successful delete. The type filter, the badge colour and the
  type label.
- **Registration** (`useRegister.ts`). The password check, the payload with an optional
  `name`, and the fallback error messages.

Modules, one per file: `Js` (JavaScript values: optional values, thrown values, settled
promises, truthiness, `toLowerCase`, `includes`, number formatting), `Skills` (the
inventory's values and the JSON payloads), `Http` (requests, responses and the Fetch
`Headers` object), `Session`, `Utils`, `LoginForm`, `LoginPage`, `SkillsPopup`,
`Dashboard` and `UseRegister`.

How the browser is modelled: one `Session.Browser` object stands for it. Its fields are
`storage` (local storage), `href` (the window's location), `routes` (every
`router.push`, in order) and `sent` (every request handed to the network, in order). Each
network reply is a parameter of type `Reply<B>`. A reply is either a response (a status,
and a body that is a JSON document or not JSON) or a rejection carrying the thrown value.
Components are classes whose fields are their React state. Each handler is a method that
runs once from start to end. A ghost out-parameter `pending` records the flags as they
stand while the request is awaited.

Some behaviours of the code worth stating plainly:
- With no token, `authFetch` still sends the request, just without `Authorization`.
- A `Content-Type` given by the caller is replaced by application/json.
- The popup edits one skill at a time, and sends its proficiency even for WANTED_TO_LEARN.
- Only the error text tells a failed create from a failed attach.

## Model

| member | source | states |
|---|---|---|
| Session.StoredToken | src/lib/auth.ts:2-7 | without a window there is no token; in the browser it is the 'token' entry of local storage, absent when that entry is absent (src/lib/utils.ts:8-13 is the same function) |
| Http.HeaderMap | src/lib/auth.ts:12 | `new Headers(pairs)`: every name is stored lower-cased, every name a pair gives (in any case) is present, and no other name is |
| Http.AuthHeaders | src/lib/auth.ts:12-17 | Content-Type is application/json; Authorization is "Bearer " + token for a truthy token; the names are the caller's plus these two, Authorization only when the caller gave it or the token is truthy |
| Session.AuthRequest | src/lib/auth.ts:19-22 | the request keeps the caller's URL, method and body, with application/json and, for a truthy token, the Bearer header |
| Http.HeaderMapCombines | src/lib/auth.ts:12 | `new Headers(options.headers)` holds a name, in lower case, exactly when some caller header gives that name in any case; its value is all of those values joined by ", " in order |
| Http.ValuesForPresent | src/lib/auth.ts:12 | a header name has values exactly when some caller pair names it, ignoring case |
| Http.AuthHeadersContract | src/lib/auth.ts:12-17 | Content-Type is always application/json, whatever the caller gave; Authorization is "Bearer " + token when the token is truthy, and otherwise only the caller's own value; every other caller header passes through with its combined value |
| Session.AuthRequestContract | src/lib/auth.ts:10-22 | the request handed to fetch keeps the caller's URL, method and body; it carries application/json, and "Bearer " + token when the token is truthy; with a null or empty token and no caller Authorization, it has no Authorization header |
| Session.AuthOutcome | src/lib/auth.ts:24-31 | a 401 is never returned to the caller: it becomes an Error with the message "Session expired"; any other reply, including other non-2xx statuses and network rejections, is passed on untouched |
| Session.Browser.AuthFetch | src/lib/auth.ts:9-32 | records exactly one request, the one built from the options and the token read before sending; on 401 the 'token' entry is removed (every other entry kept), the location becomes /auth/login and the call rejects with "Session expired"; otherwise storage and location are unchanged and the reply is returned |
| Utils.Auth | src/lib/utils.ts:16-21 | the result has only `headers`; its keys are the custom keys plus Authorization; every custom value is kept, so a custom Authorization overrides; otherwise Authorization is "Bearer " + token, or exactly "Bearer " without a truthy token (always so without a window) |
| LoginForm.Failure | src/components/auth/LoginForm.tsx:46-60 | login succeeds exactly for an ok reply with a readable body and a truthy access_token; a non-ok reply shows the body's `error` or "Server error: <status>"; an ok reply without a token shows "Authentication failed"; an unreadable body shows the parse error's message; a rejected request shows its message, or "Login failed" for a thrown non-Error |
| LoginForm.Form.constructor | src/components/auth/LoginForm.tsx:22-31 | no error, not loading, empty email and password |
| LoginForm.Form.OnSubmit | src/components/auth/LoginForm.tsx:33-65 | while awaiting: loading and no error; the form values are posted as JSON to the fixed login URL; on success the 'token' entry becomes access_token and the router goes to /Dashboard; on any failure the error is shown, the password is reset, nothing is stored and nothing is navigated; loading is false at the end |
| LoginPage.AxiosData | src/app/auth/login/page.tsx:36-41 | `login` resolves exactly for a 2xx reply, and then with the response data unchanged; a non-2xx status rejects with "Request failed with status code <status>"; a network rejection is passed on |
| LoginPage.Login | src/app/auth/login/page.tsx:36-41 | posts the payload unchanged to `<API_URL>/auth/login` and settles as `AxiosData` says |
| LoginPage.TokenToStore | src/app/auth/login/page.tsx:59-62 | a token is stored exactly when the data is a document whose access_token is present and non-empty, and it is that access_token |
| LoginPage.Page.OnSuccess | src/app/auth/login/page.tsx:58-65 | stores the token only when `TokenToStore` gives one; navigates to /dashboard in every case, even with no token |
| LoginPage.Page.OnSubmit | src/app/auth/login/page.tsx:56-70 | the form data goes to `login` unchanged; `onSuccess` runs only after `login` resolved; a rejection is passed on with nothing stored or navigated |
| SkillsPopup.CreatePhase | src/components/SkillsPopup.tsx:36-46 | the create step goes on exactly for an ok reply with a readable body, carrying the created skill; its body is read in every case, so an unreadable body fails even on a 2xx with the parse error's message; a non-ok reply gives the body's `message` or "Failed to create skill"; a rejection gives its message, or "Failed to add skill. Please try again." for a thrown non-Error |
| SkillsPopup.AttachFailure | src/components/SkillsPopup.tsx:48-62 | the attach step succeeds exactly for an ok reply, whatever its body, which is not read; a non-ok reply gives the body's `message` or "Failed to add user skill", or the parse error's message for an unreadable body; a rejection gives its message, or "Failed to add skill. Please try again." for a thrown non-Error |
| SkillsPopup.ExpiredAborts | src/components/SkillsPopup.tsx:36-62 | a 401 on the create or the attach request ends the submission with the message "Session expired" |
| SkillsPopup.Notified | src/components/SkillsPopup.tsx:64-65 | after success, onSkillAdded is called once when it was provided and never otherwise, then onClose exactly once, last |
| SkillsPopup.Popup.constructor | src/components/SkillsPopup.tsx:21-26 | type OFFERED, proficiency BEGINNER, empty skill, description and error, not submitting |
| SkillsPopup.Popup.HandleSubmit | src/components/SkillsPopup.tsx:28-72 | with no skill selected, nothing is sent and no state changes. Otherwise: the create request (name = skill, description = "<skill> skill") is sent. If create fails, only that request was sent, its message is the error, and no callback fires. Otherwise the attach request goes out with the returned id and the form's type, proficiency and description. Any ok attach reply, readable or not, leaves the error empty and fires the callbacks; any other outcome sets the error. A 401 on any sent request clears the token and redirects. Submitting is true while awaiting and false at the end |
| Dashboard.KeepAppend | src/app/dashboard/page.tsx:71 | `filter` distributes over concatenation, so kept entries keep their original order |
| Dashboard.KeepCount | src/app/dashboard/page.tsx:71 | `filter` keeps each passing entry exactly as often as it occurs, and drops the others |
| Dashboard.KeepEverything | src/app/dashboard/page.tsx:60 | `filter` with a predicate every entry passes returns the list unchanged |
| Dashboard.FilteredSkills | src/app/dashboard/page.tsx:71 | ALL gives the list unchanged; a type filter gives only entries of that type, each taken from the list |
| Dashboard.FilteredSkillsCount | src/app/dashboard/page.tsx:71 | each entry of the filtered list occurs as often as in the list when ALL is selected or it has the chosen type, and otherwise not at all |
| Dashboard.Page.Visible | src/app/dashboard/page.tsx:71 | the rows shown: the whole list for ALL, otherwise exactly the entries of the chosen type with their multiplicity |
| Dashboard.FilteredSkillsContract | src/app/dashboard/page.tsx:71 | ALL gives the list unchanged; any other filter gives exactly the entries of that type, each as often as in the list, in the list's order |
| Dashboard.RemoveById | src/app/dashboard/page.tsx:60 | never longer than the list; no entry left has the deleted id, and every one left comes from the list |
| Dashboard.RemoveByIdContract | src/app/dashboard/page.tsx:59-60 | after a successful delete, no entry has the id; every other entry stays, as often as before and in order; without such an entry the list is unchanged |
| Dashboard.BadgeColor | src/app/dashboard/page.tsx:73-79 | one of the five badge classes; gray-300 exactly when the level is absent or empty; otherwise, on the lower-cased level, "expert" anywhere gives green whatever else it contains, then "intermediate" gives yellow-400, then "beginner" gives blue-400, and gray-400 when none occurs |
| Dashboard.ExpertIsGreen | src/app/dashboard/page.tsx:73-75 | EXPERT gives bg-green-500 |
| Dashboard.IntermediateIsYellow | src/app/dashboard/page.tsx:73-76 | INTERMEDIATE gives bg-yellow-400 |
| Dashboard.BeginnerIsBlue | src/app/dashboard/page.tsx:73-77 | BEGINNER gives bg-blue-400 |
| Dashboard.AdvancedIsGray | src/app/dashboard/page.tsx:73-78 | ADVANCED matches none of the checks and gives bg-gray-400 |
| Dashboard.BadgeColorContract | src/app/dashboard/page.tsx:73-79 | an absent or empty level gives bg-gray-300; the four proficiency levels give green, yellow, blue and gray-400 |
| Dashboard.BadgeColorIgnoresCase | src/app/dashboard/page.tsx:75-77 | the checks ignore case, and a level containing "expert" is green whatever else it contains |
| Dashboard.SpaceUnderscores | src/app/dashboard/page.tsx:134 | same length, every '_' replaced by a space, every other character kept |
| Dashboard.TypeLabel | src/app/dashboard/page.tsx:134 | the type column reads "offered" and "wanted to learn" |
| Dashboard.Replaces | src/app/dashboard/page.tsx:25-29 | the fetched list is taken exactly for a non-401 reply, whatever its status, whose body is an array |
| Dashboard.DeleteNotice | src/app/dashboard/page.tsx:57-68 | the delete counts as done exactly for an ok reply with a readable body; a non-ok reply shows the body's `message` or "Failed to delete skill."; a rejection or an unreadable body, even on a 2xx reply, shows "Something went wrong." |
| Dashboard.Page.constructor | src/app/dashboard/page.tsx:17-20 | empty list, loading, filter ALL |
| Dashboard.Page.FetchSkills | src/app/dashboard/page.tsx:22-35 | one GET for the user's list; the list is replaced only when the body is an array, whatever the status except 401; otherwise it is kept; loading is false afterwards; a 401 clears the token and redirects |
| Dashboard.Page.HandleDelete | src/app/dashboard/page.tsx:41-69 | an unconfirmed delete sends nothing and changes nothing; a confirmed one sends one DELETE for the id; the entries with the id are removed only when `DeleteNotice` says deleted; any failure, non-ok or thrown, leaves the list unchanged |
| UseRegister.Payload | src/hooks/useRegister.ts:41-45 | email and password are copied; `name` is present exactly when the full name is truthy and is then the full name; the confirmation is not part of the payload |
| UseRegister.Failure | src/hooks/useRegister.ts:55-66 | registration succeeds exactly for an ok reply with a readable body; a non-ok reply shows the body's `message` or "Registration failed"; an unreadable body shows the parse error's message; a rejection shows its message, or "An unknown error occurred" for a thrown non-Error |
| UseRegister.RegisterHook.constructor | src/hooks/useRegister.ts:27-28 | not loading, no error |
| UseRegister.RegisterHook.Register | src/hooks/useRegister.ts:30-70 | while awaiting: loading and no error. Different passwords send nothing and show "Passwords don't match". Otherwise the payload is posted; success navigates to /auth/login?registered=true, failure shows its message and does not navigate. Loading is false at the end |
| UseRegister.RegisterHook.ResetError | src/hooks/useRegister.ts:72 | the error becomes null |

## Left out

- Rendering: JSX, Tailwind classes and the form widgets are not modelled. So are the
  sweetalert and sonner dialogs. The delete confirmation is the boolean `confirmed`, and
  the delete alert is the `Notice` that `HandleDelete` returns.
- The plain `useState` setters (`setSelectedSkill`, `setType`, `setProficiency`,
  `setDescription`, `setFilter`) are not modelled as methods. They are assignments to the
  public fields of the classes.
- The dashboard's `showPopup` flag and `setShowPopup`, which only open and close the
  popup, are not modelled.
- Logging is not modelled: `console.log` of the login URL and the `console.error` calls
  in the popup and the dashboard have no effect on state.
- Real I/O: `fetch`, axios, `localStorage`, `window.location` and the router are replaced
  by the `Browser` object and the reply parameters. `process.env.NEXT_PUBLIC_API_URL` is
  the `apiUrl` parameter.
- Timing: async interleavings, overlapping submissions, React's batching of state
  updates, and react-query's mutation state (`isPending`, caching) are not modelled. Each
  handler runs once, start to end.
- Server-side use: `authFetch` and the handlers are only modelled inside a browser, since
  all of them belong to client components. The no-window branch of `getToken` is
  modelled by `StoredToken`, which `Utils.Auth` uses.
- Fetch `Headers` details: invalid header names (a TypeError), whitespace trimming of
  values, and RequestInit fields other than method, headers and body are not modelled.
- Axios: its own default headers are not recorded. The login page's request is logged
  with an empty header map. A non-JSON axios body is treated like an unreadable body, so
  it carries no token.
- JSON replies that are `null` or not an object are not modelled. Reading a field of
  `null` throws a TypeError, whose message would become the error. Every reply document
  here is an object with the fields the code reads.
- Header values that `Headers.set` rejects are not modelled. A token containing a newline
  or a character outside Latin-1 would make `authFetch` throw before sending anything;
  `Session.Browser.AuthFetch` always sends.
- Response bodies: a `message` field that is an array of strings is not modelled.
  `new Error(array)` would join it with commas. Only string messages and string tokens
  are modelled.
- Lower-casing: `toLowerCase` is modelled for ASCII letters only. All the strings it
  sees here are ASCII constants.
- Form validation: the zod `loginSchema` runs before `onSubmit`. src/lib/validations is
  not part of this model.
- Setup and plumbing: `cn` in src/lib/utils.ts (it wraps clsx and tailwind-merge), the
  query-client providers, the `/api/auth` proxy route, `useAuth`, `useLoginForm`,
  `RegisterForm` (its `onSubmit` only logs) and the page shells. They hold no decision
  logic.
- LoginForm.Form.OnSubmit, SkillsPopup.Popup.HandleSubmit, UseRegister.RegisterHook.Register: what `pending` records is only the (loading, error) pair right after the flags are first set, not every intermediate render.
