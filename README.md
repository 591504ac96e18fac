# Payment API request handlers in Dafny

This project models the request-handling core of a small PHP REST API. The API manages three entities:

- customers;
- payment methods;
- payment transactions, each of which refers to one customer and one payment method.

The model covers the three controllers and the application's default error handler. Each controller handler does four things:

1. It reads and checks a body or an id.
2. It consults a repository.
3. It changes the repository with `store`, `update` or `remove`.
4. It answers with a status code and a JSON message.

The error handler maps any fault that escapes a handler to a status code and a JSON payload.

Modules, one per component:

- `Optional` (optional.dfy): the `Option` type, which a lookup that may find nothing returns.
- `PhpValues` (php_values.dfy):
  - a decoded PHP/JSON value;
  - PHP's `empty()`;
  - the fallback from the parsed body to the JSON-decoded raw body that every create handler uses;
  - the coercion PHP applies when a body value reaches an `int` parameter.
- `Http` (http.dfy): a response is a status code plus the value `json_encode` writes.
- `Repositories` (repositories.dfy): one generic class stands for the three repository interfaces. It holds:
  - a map from auto-increment id to record;
  - the ids in the ascending order `findAll` lists them;
  - the next id to assign;
  - a ghost log of the `store`/`update`/`remove` calls made on it. Handlers use this log to promise which calls they make: none on a rejection, exactly one on success.
- `Customers`, `Methods`, `Payments` (customers.dfy, methods.dfy, payments.dfy): each controller is a class that holds its repositories. Each handler is a method that changes those repositories and returns a `Response`.
- `ErrorHandler` (error_handler.dfy): a pure function of the fault and the `displayErrorDetails` flag.

Environment inputs are method parameters:

- whether the persistence engine throws on `store`;
- the parsed body and the JSON-decoded raw body;
- for payments, what the `DateTime` constructor makes of the submitted date.

The model follows the code as written in two places where the code disagrees with its tests or with its own OpenAPI annotations:

- **Deactivate and reactivate status.** For both customers and payment methods, the success path finalises the response with status 404 even though the message says "Deactivated" or "Reactivated" (src/Controller/CustomersController.php:304, :358; src/Controller/MethodsController.php:286, :341). The tests assert 200 (Tests/CustomersControllerTest.php:168, :206). The model returns 404, as the code does.
- **`isActive` on create.** The created customer or payment method gets the literal string `'isActive'` as its `isActive` value, whatever was submitted (src/Controller/CustomersController.php:185, src/Controller/MethodsController.php:166). The OpenAPI annotations declare `isActive` a boolean request field (src/Controller/CustomersController.php:127, src/Controller/MethodsController.php:110), but the handlers never read it. The model stores that string and proves only that it is truthy.

## Model

| member | source | states |
|---|---|---|
| `PhpValues.SelectData` | src/Controller/CustomersController.php:159-173 | The parsed body is used when it is non-empty. Otherwise the JSON body is used when it is non-empty. Otherwise there is no data, which means 400. Any data returned is non-empty. |
| `PhpValues.EmptyValuesOfPhp` | src/Controller/PaymentsController.php:172 | `empty()` holds for null, false, 0, 0.0, "", "0" and empty arrays. It fails for true, -1, "00", " ", "false" and 0.01. |
| `PhpValues.ToIntArgument` | src/Controller/PaymentsController.php:178-179 | An int passes unchanged. A bool becomes 0 or 1. Null and arrays are refused, which is a TypeError in PHP. |
| `PhpValues.IntegerTextRoundTrip` | src/Controller/PaymentsController.php:178-179 | Any integer written as decimal text reaches `findById` as that same integer. PHP ints are 64-bit, so PHP only keeps this promise for texts of integers within the 64-bit signed range. |
| `PhpValues.NonNumericTextRefused` | src/Controller/PaymentsController.php:178-179 | Text that starts with a letter, lower or upper case, such as "card" or "Visa", is refused, which is a TypeError in PHP. |
| `PhpValues.FloatCoercionExamples` | src/Model/Payments.php:22 | The `float` amount property takes ints, floats and leading-numeric text such as " 12.5", "-3" or ".5". It refuses text that starts with a letter, lower or upper case, and arrays, which is a TypeError in PHP. |
| `Repositories.Repository.FindById` | src/Repository/CustomersRepository.php:53 | Returns a record exactly when the id is stored, and that record is the stored one. |
| `Repositories.Repository.FindAll` | src/Repository/CustomersRepository.php:44 | Lists as many pairs as there are stored records. Each pair is a stored (id, record). The ids are strictly ascending. The list is empty exactly when the repository is. |
| `Repositories.Repository.FindAllCovers` | src/Repository/CustomersRepository.php:44 | Every stored record appears in the `findAll` listing. |
| `Repositories.Repository.Store` | src/Repository/CustomersRepository.php:19 | On success the record is stored under a fresh id (the next one), appended to the listing order, and the next id advances by one. On failure nothing is stored and the next id stays. Either way, exactly one store call is logged. |
| `Repositories.Repository.Update` | src/Repository/CustomersRepository.php:28 | Overwrites the record of an existing id. Ids and order are unchanged. One update call is logged. |
| `Repositories.Repository.Remove` | src/Repository/CustomersRepository.php:37 | Deletes exactly that key. The other records and their order stay, and the next id is not reused. One remove call is logged. |
| `Customers.CustomerToCreate` | src/Controller/CustomersController.php:159-185 | A customer is created exactly when there is selected data and firstName, lastName and email are all PHP-non-empty. It carries the submitted three fields and an `isActive` that is truthy. |
| `Customers.CreateIgnoresSubmittedIsActive` | src/Controller/CustomersController.php:185 | The submitted isActive value has no effect on the created customer, whether it arrives in the parsed body or in the JSON body. |
| `Customers.CustomersController.IndexAction` | src/Controller/CustomersController.php:85-106 | An empty repository gives 404 "No customer found". Otherwise the answer is 200 with one {id, firstName, lastName, email, isActive} entry per stored customer, in findAll order, and every customer is listed. |
| `Customers.CustomersController.CreateAction` | src/Controller/CustomersController.php:157-199 | Invalid or missing data gives 400 "Invalid data" with the repository untouched and no store call. Otherwise exactly one store call is made. If it fails, the answer is 500 "Error creating customer", nothing is stored and the next id stays. If it succeeds, the answer is 200 with `customer_id` equal to the assigned id, under which the new customer is stored, appended to the order; the next id advances by one. |
| `Customers.CustomersController.RemoveAction` | src/Controller/CustomersController.php:235-251 | An absent id gives 404 "Customer Not Found" and nothing changes. A present id gives 200 "Customer Deleted"; only that key is deleted, from the map and from the order, the next id stays, and one remove call is logged. |
| `Customers.CustomersController.DeactivateAction` | src/Controller/CustomersController.php:287-305 | An absent id gives 404 "Customer Not Found" and nothing changes. A present id has only its isActive set to false, with one update call; the answer is status 404 with "Customer Deactivated". |
| `Customers.CustomersController.ReactivateAction` | src/Controller/CustomersController.php:341-359 | An absent id gives 404 "Customer Not Found" and nothing changes. A present id has only its isActive set to true, with one update call; the answer is status 404 with "Customer Reactivated". |
| `Customers.CustomersController.UpdateAction` | src/Controller/CustomersController.php:404-428 | An absent id gives 404 and the body is not read. A present id has firstName, lastName, email and isActive overwritten from the body under the same id, with one update call; the answer is 200 "Customer Updated". |
| `Customers.DeactivateThenReactivate` | src/Controller/CustomersController.php:287-359 | Deactivating then reactivating a stored customer leaves it active and otherwise unchanged, after exactly two update calls. |
| `Methods.MethodToCreate` | src/Controller/MethodsController.php:142-166 | A payment method is created exactly when there is selected data with a PHP-non-empty name. It carries that name and a truthy isActive. |
| `Methods.MethodsController.IndexAction` | src/Controller/MethodsController.php:70-98 | An empty repository gives 404 "No payment methods found". Otherwise the answer is 200 with one {id, name, isActive} entry per stored method, in findAll order, and every method is listed. |
| `Methods.MethodsController.CreateAction` | src/Controller/MethodsController.php:140-180 | Invalid data gives 400 "Invalid data" with no store call. A failing store gives 500 "Error payment creating method", nothing is stored and the next id stays. Success gives 200 with `method_id` equal to the assigned id, under which the method is stored, appended to the order; the next id advances by one. |
| `Methods.MethodsController.RemoveAction` | src/Controller/MethodsController.php:216-232 | An absent id gives 404 "Payment Method Not Found" and nothing changes. A present id gives 200 "Payment Method Deleted"; only that key is deleted, from the map and from the order, and the next id stays. |
| `Methods.MethodsController.DeactivateAction` | src/Controller/MethodsController.php:268-287 | An absent id gives 404 and nothing changes. A present id has only its isActive set to false, with one update call; the answer is status 404 with "Payment Method Deactivated". |
| `Methods.MethodsController.ReactivateAction` | src/Controller/MethodsController.php:323-342 | An absent id gives 404 and nothing changes. A present id has only its isActive set to true, with one update call; the answer is status 404 with "Payment Method Reactivated". |
| `Methods.MethodsController.UpdateAction` | src/Controller/MethodsController.php:385-407 | An absent id gives 404 "Payment Method Not Found". A present id has name and isActive overwritten from the body, with one update call; the answer is 200 "Payment Method Updated". |
| `Payments.CreateStepFor` | src/Controller/PaymentsController.php:154-198 | The outcome of a payment create, in check order. Missing data or any empty required field gives 400. An uncoercible customer_id, then an uncoercible method_id, throws. A missing customer gives 404, whatever the methods are. Next comes a missing method, then an amount the `float` property refuses (a TypeError), then an unparsable date. Only then is a payment stored, referring to existing records and carrying the submitted non-empty, float-coercible amount. These are the faults of the model; PHP can raise others that the model leaves out (see below). |
| `Payments.CustomerCheckedFirst` | src/Controller/PaymentsController.php:178-189 | A missing customer is reported whatever payment methods are stored. |
| `Payments.LookupsRunBeforeChecks` | src/Controller/PaymentsController.php:178-184 | For any selected body, from the parsed or the JSON path, a method_id starting with a letter throws even when the customer does not exist, because both lookups run before either result is checked. |
| `Payments.AmountCheckedBeforeDate` | src/Controller/PaymentsController.php:193-194 | An amount the float property refuses throws whatever the date parser would have made of the date. |
| `Payments.TextAmountNotStored` | src/Controller/PaymentsController.php:191-194 | For any selected body, an amount that is text starting with a letter, such as "ten", throws even when the customer and method exist, so nothing is stored. |
| `Payments.ZeroAmountRejected` | src/Controller/PaymentsController.php:172-176 | For any selected body, an amount of 0, 0.0, "0" or false is rejected as invalid data. |
| `Payments.PaymentsController.IndexAction` | src/Controller/PaymentsController.php:80-110 | An empty repository gives 404 "No payment transaction found". Otherwise the answer is 200 with one {id, customer_id, method_id, amount, payment_date} entry per payment, with the referenced ids, and every payment is listed. |
| `Payments.PaymentsController.CreateAction` | src/Controller/PaymentsController.php:154-209 | Each `CreateStepFor` outcome gives its response or escaping fault, and only the store step touches the payments repository. A failing store gives 500 "Error creating payment transaction". Success gives 200 "Payment transaction created successfully", with no id, and the payment stored under a fresh id, appended to the order, with the next id advanced by one; a failing store leaves the next id. Customers and methods are never changed. |
| `Payments.PaymentsController.RemoveAction` | src/Controller/PaymentsController.php:244-260 | An absent id gives 404 "Payment transaction not found" and nothing changes. A present id is deleted from the map and the order, the next id stays, and the answer is 200 "Payment transaction deleted successfully". Customers and methods are unchanged. |
| `Payments.EscapedCreateFaultsAre500` | src/Middleware/ErrorHandler.php:50-60 | The faults the modelled payment create lets escape (the two TypeErrors and the DateTime exception) are answered with status 500. These are the model's escaping faults, not every fault PHP can raise there. |
| `ErrorHandler.Invoke` | src/Middleware/ErrorHandler.php:47-76 | An ORM, route-not-found or PDO fault gives 500. Otherwise an application fault gives its own code, and anything else gives 500. The payload message is the exception message. `details` (equal to the message) and `trace` are present exactly when `displayErrorDetails` is set, and no other key appears. |
| `ErrorHandler.StatusIs500UnlessAppFault` | src/Middleware/ErrorHandler.php:50-60 | A status other than 500 only comes from an application fault that is none of the infrastructure kinds. |
| `ErrorHandler.InfrastructureBeforeAppFault` | src/Middleware/ErrorHandler.php:52-60 | A fault that is both a PDO fault and an application fault gets 500: the infrastructure test runs first. |
| `ErrorHandler.DetailsFlagOnlyAddsFields` | src/Middleware/ErrorHandler.php:62-69 | The details flag does not change the status or the message. Without it the payload is exactly `{message}`. |

## Left out

- Logging: the Monolog calls in every handler and in the error handler are side effects only.
- The token gate and token issuing (src/Middleware/JwtMiddleware.php, config/generateToken.php): these are signature checks by a JWT library whose code is not part of this model.
- Wiring and bootstrapping (config/container.php, cli-config.php, public/index.php): dependency-container setup, environment loading, and route and middleware registration.
- The Doctrine repository implementations are replaced by the abstract map and its ascending listing order. Only `store` can fail in the model, through a parameter. Failures of `update`, `remove` or the lookups would escape to the error handler and are not modelled.
- JSON and PSR-7 details:
  - bodies are already-decoded maps;
  - a raw body that decodes to a non-array scalar is treated as no body, which leads to the same 400 answer;
  - headers and stream handling are not modelled.
- Route arguments arrive as ints. The coercion of the route string by `findById(int)`, and the `(int)` cast in the payments remove handler, are not modelled.
- `PhpValues.ToIntArgument`: strings are accepted only as an optional sign followed by digits. PHP also accepts surrounding whitespace, fractional and exponent forms such as "1e3", and leading-numeric text such as "12abc" (read as 12, with a warning); it refuses ints beyond 64 bits. A float outside the 64-bit range is a TypeError in PHP, while the model truncates it. None of that is modelled.
- Amounts and dates are opaque. The `float` amount property (src/Model/Payments.php:22) is modelled only as the check `FloatCoercible`, which decides whether setAmount throws; an accepted amount is stored as submitted, without its conversion to a float or its decimal(10,2) storage. The DateTime parsing and formatting are a parameter of the payment create handler.
- The Customers and Methods entity classes are not part of this model. Their field values are stored as given, with no setter type coercion and no database conversion of the `'isActive'` string to a boolean.
- `Customers.CustomersController.UpdateAction`: requires that, when the customer exists, the JSON body holds every key it reads. What PHP does with a missing key depends on the runtime and on entity setter types that are not part of this model.
- `Methods.MethodsController.UpdateAction`: requires that, when the payment method exists, the JSON body holds `name` and `isActive`, for the same reason.
- Faults raised inside the model carry code 0 and an empty trace. The exact wording of PHP's TypeError message is not reproduced.
- `ErrorHandler.Invoke`: Slim's refusal of a status outside 100-599 in `withStatus` is not modelled, and neither is `JSON_UNESCAPED_UNICODE`.
- Concurrency: each handler runs alone. A record deleted by another request between lookup and store is not modelled.
