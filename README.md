# Mobile page layout listener: a verified model

This project models the one piece of decision logic in the `netzmacht/contao-page-context`
extension for the Contao CMS. That piece is the `getPageLayout` hook
`MobilePageLayoutListener::onGetPageLayout`. It runs once per request, before the page
layout is final, and does four things:

- It decides whether the page is rendered in mobile mode. The environment agent's `mobile`
  flag decides by default. A `TL_VIEW` cookie on the master request overrides the flag in
  either direction.
- It stores that decision in the page's `isMobile` field.
- In mobile mode, it replaces the caller's by-reference layout with the page's configured
  mobile layout from the layout repository.
- If that layout record does not exist, it logs one error record and throws
  `NoLayoutSpecifiedException`.

The hook does none of this, and sets `isMobile` to false, when the page has no mobile layout
or when the kernel bundle `ContaoMobilePageLayoutBundle` is active.

Files:

- `page_context.dfy` (module `PageContext`) holds the data model:
  - the `Page` class, whose `isMobile` field the hook assigns;
  - the `Logger` class, which records what it is given;
  - `Layout`, `Request`, `LogRecord` and `Outcome`.
  It also holds `Resolve`, the hook's effect as a pure function of what it reads, and the
  `MobilePageLayoutListener` class. The class's `OnGetPageLayout` method follows the source
  statement by statement and is proved to agree with `Resolve`. The lemmas about `Resolve`
  state the hook's promises.
- `php_int.dfy` (module `PhpInt`) holds PHP's int-to-string conversion, which the `.` operator
  uses to put the layout id into the error message. It also holds `ParseInt`, the inverse of
  that conversion, and proofs that the two are inverse in both directions. So the logged
  message names exactly the missing id.
- `wrappers.dfy` (module `Wrappers`) holds `Option`, which stands for PHP's `null`.

Modelling choices:

- The framework's `Environment` adapter, the request stack and the layout repository are
  services that the hook queries during the call. The model passes what they return as
  parameters of `OnGetPageLayout`:
  - `agentMobile: bool` is `Environment::get('agent')->mobile`;
  - `masterRequest: Option<Request>` is `getMasterRequest()`, and only its cookie bag is kept;
  - `layouts: map<int, Layout>` is the layout repository, and `find` is a map lookup.
- The logger and the active-bundle list are stored by the constructor, as in the source.
- The active bundles are a `map<string, Option<string>>`. A key that is present but mapped to
  null is therefore not `isset`, as in PHP. `NullBundleEntryIgnored` states this.
- `Page.isMobile` is `Option<bool>`, with `None` meaning "never assigned". The hook's
  postcondition shows that the hook gives it a definite value on every path.
- The by-reference `&$layoutModel` is an in-parameter plus the out-parameter `layoutOut`.
  `Resolve` returns a `LayoutWrite`: either `Keep`, or `Overwrite` with the repository's answer.
  `Resolve` takes no incoming-layout argument. This shows that the hook never reads the
  incoming layout.
- Points of the source that the model keeps exactly:
  - The hook returns nothing. It does not return an "unchanged / replaced / fails" value.
  - On the failure path, the caller's layout has already been overwritten with null before
    the exception (src/EventListener/MobilePageLayoutListener.php:108-112).
  - The cookie is `TL_VIEW`.
  - The conflicting module is detected with `isset` on the bundle array, not by set
    membership.

## Model

| member | source | states |
|---|---|---|
| `PageContext.MobilePageLayoutListener.OnGetPageLayout` | src/EventListener/MobilePageLayoutListener.php:87-121 | after the hook, `isMobile` is assigned (`Some`) and equals the decision, the caller's layout is kept or overwritten as the decision says, the outcome is normal return or `NoLayoutSpecified`, and the logger gained exactly the decision's records |
| `PageContext.MobilePageLayoutListener.constructor` | src/EventListener/MobilePageLayoutListener.php:65-77 | the listener keeps the logger and the active-bundle list it is given |
| `PageContext.Logger.Log` | src/EventListener/MobilePageLayoutListener.php:113-117 | logging appends exactly one record with the given level, message and Contao context |
| `PageContext.GuardKeepsDesktop` | src/EventListener/MobilePageLayoutListener.php:89-93 | with mobile layout id 0 or the mobile-layout bundle set, the page is desktop, the layout is kept, nothing is logged and nothing is thrown, whatever the agent, cookie and repository |
| `PageContext.NullBundleEntryIgnored` | src/EventListener/MobilePageLayoutListener.php:89 | a bundle entry that maps to null does not trip the guard: the outcome is the same as if the entry were absent |
| `PageContext.CookieOverridesAgent` | src/EventListener/MobilePageLayoutListener.php:99-101 | past the guard, with a `TL_VIEW` cookie on the master request, mobile mode holds iff the cookie is exactly `"mobile"`, whatever the agent flag |
| `PageContext.AgentDecidesWithoutCookie` | src/EventListener/MobilePageLayoutListener.php:95-99 | past the guard, with no master request or no `TL_VIEW` cookie, mobile mode equals the agent's flag |
| `PageContext.DesktopKeepsLayout` | src/EventListener/MobilePageLayoutListener.php:103-106 | when the decision is desktop, the layout is kept, nothing is logged and nothing is thrown |
| `PageContext.MobileInstallsLayout` | src/EventListener/MobilePageLayoutListener.php:108-112 | in mobile mode with a record for the id, the caller's layout becomes exactly that record and the hook returns normally without logging |
| `PageContext.MobileMissingLayoutFails` | src/EventListener/MobilePageLayoutListener.php:108-119 | in mobile mode with no record, the hook throws `NoLayoutSpecified("No layout specified")`, leaves the caller's layout null, and logs exactly one error-level record whose message names the id |
| `PageContext.FailsOnlyOnMissingLayout` | src/EventListener/MobilePageLayoutListener.php:89-119 | the hook throws iff the guard passes, the view is mobile and the id has no record, and it logs iff it throws |
| `PageContext.NormalReturnHoldsLayout` | src/EventListener/MobilePageLayoutListener.php:104-120 | on a normal return the caller holds a layout, and any layout installed is the repository's record for the page's mobile layout id, installed only in mobile mode |
| `PageContext.ResolveIdempotent` | src/EventListener/MobilePageLayoutListener.php:87-121 | after a normal return, a second call with the same inputs on the layout left behind leaves that layout as it is |
| `PageContext.MissingLayoutMessage` | src/EventListener/MobilePageLayoutListener.php:115 | the message starts with `Could not find mobile layout ID "` and ends with a closing quote around a non-empty id |
| `PageContext.MissingLayoutMessageNamesId` | src/EventListener/MobilePageLayoutListener.php:113-117 | the layout id can be read back from the logged message |
| `PageContext.MissingLayoutMessageInjective` | src/EventListener/MobilePageLayoutListener.php:115 | two ids give the same message iff they are equal |
| `PhpInt.NatToString` | src/EventListener/MobilePageLayoutListener.php:115 | a natural number's decimal form is a non-empty digit string with no leading zero, and it starts with `0` only for 0 |
| `PhpInt.IntToString` | src/EventListener/MobilePageLayoutListener.php:115 | the string of an int is non-empty and starts with `-` iff the int is negative |
| `PhpInt.IntToStringRoundTrip` | src/EventListener/MobilePageLayoutListener.php:115 | parsing the string of any int gives that int back |
| `PhpInt.ParseIntRoundTrip` | src/EventListener/MobilePageLayoutListener.php:115 | every string the parser accepts is exactly the string of the int it reads |
| `PhpInt.IntToStringInjective` | src/EventListener/MobilePageLayoutListener.php:115 | two ints have the same string iff they are equal |

## Left out

- src/DependencyInjection/NetzmachtContaoPageContextExtension.php is not part of this model. It is service-container wiring: it loads XML service files and reads a package version string.
- The "Contao < 4.8" restriction in the class comment is not modelled. The listener is registered or not by service configuration, which is not part of this model.
- Device detection, the request stack, the Symfony cookie bag, the repository manager and its SQL lookup, and the Monolog logger are not modelled as behaviour. Each is the value it yields during the call, and the logger is the list of records it receives.
- PHP loose truthiness is not modelled. `! $pageModel->mobileLayout` is modelled as "the integer id is 0", and the `(int)` cast as the identity. Values such as `"0"`, `""` or `null` are outside the model.
- The agent's `mobile` flag is modelled as a `bool`, and cookie values as strings. Non-boolean flags and non-string cookie values are outside the model.
- A layout record keeps only its id and name. The hook does not look at any other column.
- Only the PHP exception's class and message are modelled: the outcome `NoLayoutSpecified("No layout specified")`. Exception propagation through the caller is not modelled.
