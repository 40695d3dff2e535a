# fast-fit core, modelled in Dafny

This project models the decision logic of the fast-fit food-ordering backend:

- The `Order` aggregate with its items, money, delivery address and status machine.
- The create-order and update-order-status use cases, the order mapper and the order store.
- The SQLAlchemy unit of work:
  - nested transaction scopes, commit/rollback/close;
  - translation of storage exceptions;
  - parsing of duplicate-key messages.
- The HTTP error middleware and its handlers, and the token error handler of the auth application.
- The menu:
  - dish and category value objects, entities, factories and mappers;
  - the filter-or-list branch of the dish query.
- Identities and authentication:
  - the identity service and its mapper;
  - the refresh-token refresher;
  - the verify-code login use case.

How the Python maps to Dafny:

- Frozen dataclasses are datatypes. Each has a `Valid()` predicate and a validating function that returns `Ok` or the exception the constructor raises.
- Entities that the code changes in place are classes, with their fields and a `Data()` snapshot:
  - `Order`, `Dish` and `Category`;
  - the unit of work, its `Transaction` and the session;
  - the identity store and the token services.
- A raised exception is a value `Error(cls, args, orig)`. `isinstance` walks a single-inheritance class hierarchy (`Errors.IsA`).
- Python's `not s.strip()` is `Text.IsBlank`, defined over Python's whitespace characters.
- Decimal amounts and nutrients are exact `real`s. Timestamps are integers and UUIDs are strings.
- Id generators, the clock, the password hasher, the token issuer and the expiry test are parameters.

Every module says which Python file it stands for. Paths in the table below are relative to the repository root.

## Model

| member | source | states |
|---|---|---|
| Text.BlankIffAllSpace | src/fastfit/order/domain/value_objects/delivery_address.py:11 | `not value.strip()` holds exactly when every character is whitespace, the empty string included |
| Errors.SubclassIsA | src/common/infrastructure/server/fastapi/middleware/error_middleware.py:27-28 | an instance of a derived class is an instance of exactly itself and whatever its base is an instance of |
| Errors.IsATransitive | src/common/infrastructure/server/fastapi/middleware/error_middleware.py:59-60 | `isinstance` through a chain of subclasses is transitive |
| Errors.AncestorsAreChained | src/common/infrastructure/database/sqlalchemy/unit_of_work.py:127-143 | under single inheritance, two classes that an exception is an instance of are ordered by subclassing, so sibling tests exclude each other |
| Errors.EverythingIsException | src/common/infrastructure/server/fastapi/middleware/error_middleware.py:97 | every exception class is caught by `except Exception` |
| MoneyValues.NewMoney | src/fastfit/menu/domain/value_objects/money.py:11-21 | accepted iff amount >= 0 and the currency is not blank; the amount error comes first; fields stored verbatim; currency defaults to "USD" |
| MoneyValues.NewMoneyOfValid | src/fastfit/menu/domain/value_objects/money.py:13-21 | every valid money value is rebuilt unchanged by `create` |
| MoneyValues.ZeroUsdAccepted | src/fastfit/menu/domain/value_objects/money.py:11-14 | a zero amount with the default currency is accepted |
| DeliveryAddresses.NewDeliveryAddress | src/fastfit/order/domain/value_objects/delivery_address.py:8-12 | accepted iff not blank, stored untrimmed; otherwise "Address is required" |
| DeliveryAddresses.BlankAddressesRefused | src/fastfit/order/domain/value_objects/delivery_address.py:10-12 | the empty and every whitespace-only string are refused |
| DeliveryAddresses.ValidAddressNonEmpty | src/fastfit/order/domain/value_objects/delivery_address.py:10-12 | a valid address is never the empty string |
| DeliveryAddresses.AddressIfGiven | src/fastfit/order/application/usecases/command/create_order_use_case.py:40-44 | `None` and "" give no address; any other string is validated as an address |
| OrderItems.NewOrderItem | src/fastfit/order/domain/entities/order_item.py:15-21 | accepted iff quantity >= 1, no upper bound, fields as given, price not re-checked |
| OrderItems.ItemFromFields | src/fastfit/order/application/usecases/command/create_order_use_case.py:26-33 | the money is built before the quantity check; success iff the item and its price are valid |
| Orders.CheckInvariants | src/fastfit/order/domain/entities/order.py:26-35 | passes iff there are items and a delivery order has an address; the empty-items error comes first |
| Orders.NewOrder | src/fastfit/order/domain/entities/order.py:26-35 | the constructor keeps its fields exactly when the invariants pass, and otherwise raises their error |
| Orders.CreateOrder | src/fastfit/order/domain/entities/order.py:57-79 | status is CREATED and every other field is the argument given; failure is an invariant violation |
| Orders.TransitionTable | src/fastfit/order/domain/entities/order.py:45-54 | exactly four transitions are legal; none is a self-transition and none leaves DELIVERED or PICKED_UP |
| Orders.WithoutDish | src/fastfit/order/domain/entities/order.py:40-41 | the kept lines come from the list and none is for the dish |
| Orders.WithoutDishAppend | src/fastfit/order/domain/entities/order.py:40-41 | removal distributes over concatenation, so kept lines keep their order |
| Orders.WithoutDishCount | src/fastfit/order/domain/entities/order.py:40-41 | every line of the dish goes, every other line stays; a dish not ordered leaves the list unchanged |
| Orders.WithoutDishKeepsValidLines | src/fastfit/order/domain/entities/order.py:40-41 | the remaining lines are still valid |
| Orders.Order.FromData | src/fastfit/order/domain/entities/order.py:14-24 | the new order holds exactly the given fields |
| Orders.Order.New | src/fastfit/order/domain/entities/order.py:26-35 | a fresh order exactly when the invariants pass, else their error |
| Orders.Order.AddItem | src/fastfit/order/domain/entities/order.py:37-38 | appends at the end with no de-duplication; nothing else changes; validity is kept |
| Orders.Order.RemoveItem | src/fastfit/order/domain/entities/order.py:40-43 | the items become the list without the dish and nothing else changes; it raises iff that list is empty, which it then keeps |
| Orders.Order.UpdateStatus | src/fastfit/order/domain/entities/order.py:45-55 | succeeds iff the transition is legal and then changes only the status; otherwise nothing changes and the message names both statuses |
| OrderMapping.ItemsToDomain | src/fastfit/order/infrastructure/database/postgres/sqlalchemy/mappers/order_mapper.py:16-23 | one valid item per row, in order, iff every row builds |
| OrderMapping.ToDomain | src/fastfit/order/infrastructure/database/postgres/sqlalchemy/mappers/order_mapper.py:15-39 | every loaded order satisfies the aggregate's invariants |
| OrderMapping.ItemsToPersistence | src/fastfit/order/infrastructure/database/postgres/sqlalchemy/mappers/order_mapper.py:43-52 | one row per line, in order, with the order id, dish, quantity, amount and currency; lines are not merged |
| OrderMapping.ToPersistenceFields | src/fastfit/order/infrastructure/database/postgres/sqlalchemy/mappers/order_mapper.py:42-65 | ids, status, type and timestamp are copied; a missing address is NULL |
| OrderMapping.ItemsRoundTrip | src/fastfit/order/infrastructure/database/postgres/sqlalchemy/mappers/order_mapper.py:16-23 | valid lines survive a store-and-load unchanged |
| OrderMapping.DomainRowDomain | src/fastfit/order/infrastructure/database/postgres/sqlalchemy/mappers/order_mapper.py:15-65 | `to_domain(to_persistence(o)) == o` for every valid order |
| OrderMapping.RowDomainRow | src/fastfit/order/infrastructure/database/postgres/sqlalchemy/mappers/order_mapper.py:15-65 | a loadable row whose item rows carry its id and whose address is not "" is rebuilt unchanged |
| OrderMapping.InvalidRowsRefused | src/fastfit/order/infrastructure/database/postgres/sqlalchemy/mappers/order_mapper.py:25-39 | a row with no items, a blank address or a delivery row without address raises the invariant error |
| OrderRepositories.OrderRepository.constructor | src/fastfit/order/infrastructure/database/postgres/sqlalchemy/order_repository.py:21-34 | the store starts with the given rows, each under its own id, so it is valid |
| OrderRepositories.OrderRepository.GetById | src/fastfit/order/infrastructure/database/postgres/sqlalchemy/order_repository.py:21-26 | an unknown id raises ValueError; a known one gives a fresh order loaded through the mapper, or the mapper's error |
| OrderRepositories.OrderRepository.Add | src/fastfit/order/infrastructure/database/postgres/sqlalchemy/order_repository.py:28-30 | the order's row is stored under its id; other rows unchanged |
| OrderRepositories.OrderRepository.Update | src/fastfit/order/infrastructure/database/postgres/sqlalchemy/order_repository.py:32-34 | the order's row replaces the stored one; other rows unchanged |
| CreateOrder.BuildItems | src/fastfit/order/application/usecases/command/create_order_use_case.py:26-33 | exactly one item per command item, same order and fields, iff every item is valid |
| CreateOrder.BuildOrder | src/fastfit/order/application/usecases/command/create_order_use_case.py:25-47 | every built order is valid |
| CreateOrder.Execute | src/fastfit/order/application/usecases/command/create_order_use_case.py:25-49 | on success the order is added once under the returned id; on failure nothing is stored |
| CreateOrder.BuiltOrderFields | src/fastfit/order/application/usecases/command/create_order_use_case.py:34-47 | status CREATED, `created_at` is the clock reading, and the command's fields are copied: ids, phone, delivery type, restaurant, each item's dish, quantity and price, and the address as `AddressIfGiven` reads it |
| CreateOrder.InvalidItemFails | src/fastfit/order/application/usecases/command/create_order_use_case.py:26-33 | a quantity below 1, a negative price or a blank currency fails the whole command |
| CreateOrder.EmptyAddressIsMissing | src/fastfit/order/application/usecases/command/create_order_use_case.py:40-44 | a delivery command with "" fails with the missing-address invariant |
| CreateOrder.BlankAddressRaises | src/fastfit/order/application/usecases/command/create_order_use_case.py:41-42 | a whitespace-only address raises "Address is required" |
| CreateOrder.PickupKeepsAddress | src/fastfit/order/application/usecases/command/create_order_use_case.py:40-44 | a pickup command keeps the address it was given |
| CreateOrder.PickupNeedsNoAddress | src/fastfit/order/domain/entities/order.py:29-35 | a pickup command without address is accepted |
| UpdateOrderStatus.Execute | src/fastfit/order/application/usecases/command/update_order_status_use_case.py:16-19 | unknown id or illegal transition: error and the store unchanged; legal: only that order's status changes |
| UpdateOrderStatus.OnlyStatusChanges | src/fastfit/order/application/usecases/command/update_order_status_use_case.py:17-19 | loading, changing the status and storing again gives the old row with the new status |
| UpdateOrderStatus.Replay | src/fastfit/order/application/usecases/command/update_order_status_use_case.py:16-19 | replaying commands gives a legal path made of the accepted ones |
| UpdateOrderStatus.OnlyPathToDelivered | src/fastfit/order/domain/entities/order.py:45-54 | the only legal path from CREATED to DELIVERED is PREPARING, READY, DELIVERED |
| UpdateOrderStatus.DeliveredOnlyViaChain | src/fastfit/order/application/usecases/command/update_order_status_use_case.py:16-19 | any command sequence from CREATED ends DELIVERED iff the accepted commands are exactly that chain |
| UpdateOrderStatus.PathEndIsUnique | src/fastfit/order/domain/entities/order.py:45-54 | the accepted transitions determine the final status |
| UpdateOrderStatus.AllAcceptedChain | src/fastfit/order/application/usecases/command/update_order_status_use_case.py:16-19 | with no command refused, DELIVERED is reached iff the commands are PREPARING, READY, DELIVERED |
| UpdateOrderStatus.NotIdempotent | src/fastfit/order/application/usecases/command/update_order_status_use_case.py:16-19 | the row stored by a successful update loads back as the same order with the new status, which cannot follow itself, so repeating the command fails |
| UpdateOrderStatus.ExecuteTwice | src/fastfit/order/application/usecases/command/update_order_status_use_case.py:16-19 | once a command succeeds, running it again raises an invariant violation, and the stored order keeps the new status |
| Transactions.Session.constructor | src/common/infrastructure/database/sqlalchemy/unit_of_work.py:163-165 | a created session is active and has seen no call |
| Transactions.Session.Call | src/common/infrastructure/database/sqlalchemy/unit_of_work.py:48-74 | the call is logged and fails iff the database refuses it |
| Transactions.Transaction.constructor | src/common/infrastructure/database/sqlalchemy/unit_of_work.py:26-29 | holds the session and level given |
| Transactions.Transaction.Enter | src/common/infrastructure/database/sqlalchemy/unit_of_work.py:34-35 | the nesting level goes up by one |
| Transactions.Transaction.Exit | src/common/infrastructure/database/sqlalchemy/unit_of_work.py:37-38 | the nesting level goes down by one |
| Transactions.CommitOnlyAtOutermost | src/common/infrastructure/database/sqlalchemy/unit_of_work.py:111-125 | without error a commit is made iff the level is 0 and the session is active; inner scopes only decrement |
| Transactions.ErrorRollsBackAtAnyLevel | src/common/infrastructure/database/sqlalchemy/unit_of_work.py:116-117 | with an error the first call is a rollback at every level, and nothing commits |
| Transactions.OutermostReleases | src/common/infrastructure/database/sqlalchemy/unit_of_work.py:121-125 | at level 0 the session is closed last and the transaction cleared |
| Transactions.FailedCommitKeepsTransaction | src/common/infrastructure/database/sqlalchemy/unit_of_work.py:111-125 | a refused commit at level 0 raises without closing or clearing |
| Transactions.LaterScopesNeverCommit | src/common/infrastructure/database/sqlalchemy/unit_of_work.py:76-83 | after that, the kept transaction is at level 0, so a new scope runs at level 1 and makes no session call |
| Transactions.FinalizePlanReleasing | src/common/infrastructure/database/sqlalchemy/unit_of_work.py:111-125 | the corrected finish always clears the transaction at level 0 (closing last) and decrements otherwise |
| Transactions.ReleasingAgreesUnlessKept | src/common/infrastructure/database/sqlalchemy/unit_of_work.py:111-125 | the corrected finish equals the code's wherever the code releases, and still raises where the code got stuck |
| Transactions.WordRun | src/common/infrastructure/database/sqlalchemy/unit_of_work.py:146 | `\w+` is greedy: a maximal run of word characters |
| Transactions.CloseParen | src/common/infrastructure/database/sqlalchemy/unit_of_work.py:146 | `(.*?)\)` stops at the first `)`, and no newline comes before it |
| Transactions.SearchResultShape | src/common/infrastructure/database/sqlalchemy/unit_of_work.py:145-149 | a match gives a non-empty word field and a value free of `)` |
| Transactions.NoParenNoMatch | src/common/infrastructure/database/sqlalchemy/unit_of_work.py:147-149 | a message without `(` gives ("unknown_field", "unknown_value") |
| Transactions.WordRunOfWord | src/common/infrastructure/database/sqlalchemy/unit_of_work.py:146 | a word followed by a non-word character is matched in full |
| Transactions.CloseParenAfter | src/common/infrastructure/database/sqlalchemy/unit_of_work.py:146 | the lazy group ends right after a value free of `)` and newlines |
| Transactions.ExtractFromUniqueViolation | src/common/infrastructure/database/sqlalchemy/unit_of_work.py:145-149 | any text with no `(` before "(f)=(v)", such as a driver's "... DETAIL:  Key (f)=(v) already exists.", gives back (f, v) |
| Transactions.HandleException | src/common/infrastructure/database/sqlalchemy/unit_of_work.py:127-131 | an application error passes unchanged; a stale-data error becomes an optimistic-lock error |
| Transactions.TranslationTable | src/common/infrastructure/database/sqlalchemy/unit_of_work.py:127-143 | a storage exception leaves as an application error or `IntegrityError`; any other SQLAlchemy error → RepositoryError(str); a non-storage exception is re-raised unchanged |
| Transactions.DatabaseErrorTranslation | src/common/infrastructure/database/sqlalchemy/unit_of_work.py:133-137 | a database error from a unique violation → DuplicateEntryError(field, value) of its message; any other database error → IntegrityError |
| Transactions.UnitOfWork.constructor | src/common/infrastructure/database/sqlalchemy/unit_of_work.py:41-45 | starts with no transaction |
| Transactions.UnitOfWork.GetSession | src/common/infrastructure/database/sqlalchemy/unit_of_work.py:151-158 | the current session, or ValueError "Transaction not found" |
| Transactions.UnitOfWork.Rollback | src/common/infrastructure/database/sqlalchemy/unit_of_work.py:60-66 | one rollback call; a refusal is RepositoryError; no transaction is ValueError |
| Transactions.UnitOfWork.Commit | src/common/infrastructure/database/sqlalchemy/unit_of_work.py:48-58 | an inactive session is rolled back and refused with ValueError; otherwise one commit call, a refusal being RepositoryError |
| Transactions.UnitOfWork.Close | src/common/infrastructure/database/sqlalchemy/unit_of_work.py:68-74 | one close call; a refusal is RepositoryError |
| Transactions.UnitOfWork.Enter | src/common/infrastructure/database/sqlalchemy/unit_of_work.py:76-83 | the first scope creates a transaction at level 0 on a fresh session; a nested one increments the level |
| Transactions.UnitOfWork.Finalize | src/common/infrastructure/database/sqlalchemy/unit_of_work.py:111-125 | the session calls, the outcome and the new state are those of the finishing plan |
| Transactions.UnitOfWork.Exit | src/common/infrastructure/database/sqlalchemy/unit_of_work.py:85-93 | finish the scope, then raise the translated exception if there was one |
| Transactions.UnitOfWork.OpenSessionScope | src/common/infrastructure/database/sqlalchemy/unit_of_work.py:95-109 | inside a transaction the current session, with nothing changed; otherwise a scope of its own on a fresh session |
| Transactions.UnitOfWork.CloseSessionScope | src/common/infrastructure/database/sqlalchemy/unit_of_work.py:104-109 | a borrowed session changes nothing on the way out; a scope it opened itself is exited as `__aexit__` does, committing or rolling back, then closing and resetting at the outermost level |
| Transactions.NestedScopes | src/common/infrastructure/database/sqlalchemy/unit_of_work.py:76-125 | any number of nested error-free scopes make exactly one commit and one close, and end with no transaction |
| HttpErrorHandling.StatusOf | src/common/infrastructure/server/fastapi/middleware/error_middleware.py:46 | the status map is consulted with the exact class and falls back to the default |
| HttpErrorHandling.Described | src/common/infrastructure/server/fastapi/middleware/error_middleware.py:45-50 | a response carries the class name and `str(exc)` |
| HttpErrorHandling.FirstMatch | src/common/infrastructure/server/fastapi/middleware/error_middleware.py:97-105 | the first handler that claims the exception answers; if none does, a 500 "InternalError" |
| HttpErrorHandling.Dispatch | src/common/infrastructure/server/fastapi/middleware/error_middleware.py:94-96 | a response returned without exception passes through unchanged |
| HttpErrorHandling.DomainErrorsAreBadRequests | src/common/infrastructure/server/fastapi/middleware/error_middleware.py:26-34 | every domain error is claimed and answered 400 with its class name and message |
| HttpErrorHandling.ApplicationStatusIsExact | src/common/infrastructure/server/fastapi/middleware/error_middleware.py:37-50 | exactly `NotFoundError` is 404; every other application error is 400 |
| HttpErrorHandling.NotFoundSubclassIsBadRequest | src/common/infrastructure/server/fastapi/middleware/error_middleware.py:46 | a class derived from `NotFoundError` gets 400 |
| HttpErrorHandling.RepositoryStatuses | src/common/infrastructure/server/fastapi/middleware/error_middleware.py:53-81 | optimistic lock: 409 with "Retry later: "; duplicate entry: 409; any other repository error: 500 |
| HttpErrorHandling.StandardDispatch | src/common/infrastructure/app/app.py:33-40 | with handlers registered as repository, application, domain, each kind of error reaches its own handler; others get 500 |
| HttpErrorHandling.DuplicateEntryIsConflict | src/common/infrastructure/app/app.py:33-40 | a duplicate entry is answered 409, not 400 |
| TokenErrorHandling.TokenHandlerClaims | src/fastfit/auth/infrastructure/server/fastapi/middleware/token_error_middleware.py:14-22 | claimed iff the exact type is one of the three token errors, each answered 401 |
| TokenErrorHandling.TokenSubclassNotClaimed | src/fastfit/auth/infrastructure/server/fastapi/middleware/token_error_middleware.py:21-22 | a class derived from a token error is not claimed |
| TokenErrorHandling.AuthDispatch | src/fastfit/auth/infrastructure/app/app.py:69-73 | with only the token handler registered, token errors are 401 and everything else is 500 |
| TokenErrorHandling.NotFoundNotClaimed | src/fastfit/auth/infrastructure/server/fastapi/middleware/token_error_middleware.py:21-22 | `NotFoundError`, though an application error, is not claimed |
| NutritionalValues.FirstNegative | src/fastfit/menu/domain/value_objects/nutritional_info.py:16-23 | no field is named iff every value is non-negative |
| NutritionalValues.NewNutritionalInfo | src/fastfit/menu/domain/value_objects/nutritional_info.py:15-31 | accepted iff no value is negative, then stored as given |
| NutritionalValues.FirstNegativeFieldReported | src/fastfit/menu/domain/value_objects/nutritional_info.py:16-23 | checks run calories, proteins, fats, carbohydrates, and the first negative is named |
| NutritionalValues.AllZeroAccepted | src/fastfit/menu/domain/value_objects/nutritional_info.py:22 | all-zero values are accepted |
| NutritionalValues.NewNutritionalInfoOfValid | src/fastfit/menu/domain/value_objects/nutritional_info.py:25-31 | `create` rebuilds any valid value unchanged |
| DishNames.NewDishName | src/fastfit/menu/domain/value_objects/dish_name.py:11-17 | accepted iff not blank, stored untrimmed |
| DishNames.BlankDishNamesRefused | src/fastfit/menu/domain/value_objects/dish_name.py:11-13 | empty and whitespace-only names raise |
| DishNames.DishNameKeptUntrimmed | src/fastfit/menu/domain/value_objects/dish_name.py:9-17 | a name with one non-space character is kept exactly as given |
| CategoryNames.NewCategoryName | src/fastfit/menu/domain/value_objects/category_name.py:11-17 | accepted iff not blank, stored untrimmed |
| CategoryNames.BlankCategoryNamesRefused | src/fastfit/menu/domain/value_objects/category_name.py:11-13 | empty and whitespace-only names raise |
| CategoryNames.CategoryNameKeptUntrimmed | src/fastfit/menu/domain/value_objects/category_name.py:9-17 | a name with one non-space character is kept exactly as given |
| IngredientLists.NewIngredients | src/fastfit/menu/domain/value_objects/ingredients.py:11-17 | accepted iff the list is non-empty, stored in order |
| IngredientLists.BlankEntriesAccepted | src/fastfit/menu/domain/value_objects/ingredients.py:11-13 | entries themselves are not checked: `[""]` is accepted |
| Dishes.Dish.Create | src/fastfit/menu/domain/entities/dish.py:43-68 | every argument is stored unchanged |
| Dishes.Dish.UpdateName | src/fastfit/menu/domain/entities/dish.py:25-26 | sets the name, nothing else; validity kept when the new name is valid |
| Dishes.Dish.UpdateDescription | src/fastfit/menu/domain/entities/dish.py:28-29 | sets the description, nothing else |
| Dishes.Dish.UpdatePrice | src/fastfit/menu/domain/entities/dish.py:31-32 | sets the price, nothing else |
| Dishes.Dish.UpdateNutritionalInfo | src/fastfit/menu/domain/entities/dish.py:34-35 | sets the nutritional info, nothing else |
| Dishes.Dish.UpdateIngredients | src/fastfit/menu/domain/entities/dish.py:37-38 | sets the ingredients, nothing else |
| Dishes.Dish.UpdateFilters | src/fastfit/menu/domain/entities/dish.py:40-41 | sets the filters, nothing else |
| Categories.Category.Create | src/fastfit/menu/domain/entities/category.py:17-19 | all three arguments stored unchanged |
| Categories.Category.UpdateName | src/fastfit/menu/domain/entities/category.py:14-15 | sets the name; ids unchanged; no check of its own |
| DishFactories.ValidateDishInput | src/fastfit/menu/domain/factories/dish_factory.py:16-22 | name, price, nutrition, ingredients are checked in that order; the first failure decides the error |
| DishFactories.CreateDishAsWritten | src/fastfit/menu/domain/factories/dish_factory.py:15-34 | the factory as written: validation errors, or after drawing an id a `TypeError` for the missing `image` |
| DishFactories.FactoryAsWrittenNeverSucceeds | src/fastfit/menu/domain/factories/dish_factory.py:24-34 | no input yields a dish |
| DishFactories.CreateDish | src/fastfit/menu/domain/factories/dish_factory.py:15-34 | an id is drawn only after every check passes; on success the dish is valid, holds the next id and no image, and copies the input's name, description, price, nutritional values, ingredients, filters and ids |
| DishFactories.NameCheckedFirst | src/fastfit/menu/domain/factories/dish_factory.py:16 | a blank name raises before any other check and draws no id |
| CategoryFactories.CreateCategory | src/fastfit/menu/domain/factories/category_factory.py:14-20 | a blank name raises before an id is drawn; otherwise the next id, the name untrimmed and the restaurant copied |
| CategoryFactories.SuccessiveIds | src/fastfit/menu/domain/factories/category_factory.py:17 | two successful creations get the generator's successive ids |
| DishMapping.DishToDomain | src/fastfit/menu/infrastructure/database/postgres/sqlalchemy/mappers/dish_mapper.py:14-28 | loads iff every value object accepts its columns, in the order name, price, nutrition, ingredients |
| DishMapping.DishToPersistence | src/fastfit/menu/infrastructure/database/postgres/sqlalchemy/mappers/dish_mapper.py:31-47 | price splits into amount and currency, nutrition into four columns; lists, ids, description and image copied |
| DishMapping.DishDomainRowDomain | src/fastfit/menu/infrastructure/database/postgres/sqlalchemy/mappers/dish_mapper.py:14-47 | `to_domain(to_persistence(d)) == d` for every valid dish |
| DishMapping.DishRowDomainRow | src/fastfit/menu/infrastructure/database/postgres/sqlalchemy/mappers/dish_mapper.py:14-47 | every valid row is rebuilt unchanged |
| DishMapping.EmptyIngredientsRowRefused | src/fastfit/menu/infrastructure/database/postgres/sqlalchemy/mappers/dish_mapper.py:23 | a row otherwise valid but with no ingredients raises |
| CategoryMapping.CategoryToDomain | src/fastfit/menu/infrastructure/database/postgres/sqlalchemy/mappers/category_mapper.py:10-15 | loads iff the name is not blank |
| CategoryMapping.CategoryToPersistence | src/fastfit/menu/infrastructure/database/postgres/sqlalchemy/mappers/category_mapper.py:18-23 | id, name string and restaurant copied |
| CategoryMapping.CategoryDomainRowDomain | src/fastfit/menu/infrastructure/database/postgres/sqlalchemy/mappers/category_mapper.py:10-23 | domain → row → domain is the identity |
| CategoryMapping.CategoryRowDomainRow | src/fastfit/menu/infrastructure/database/postgres/sqlalchemy/mappers/category_mapper.py:10-23 | row → domain → row is the identity for non-blank names |
| DishQueries.ChooseRead | src/fastfit/menu/application/usecases/query/get_dishes_by_restaurant_use_case.py:17-26 | `filter` iff filters are non-empty or a calorie bound is given, with `[]` for absent filters; otherwise `get_by_restaurant` |
| DishQueries.AbsentFiltersAreEmpty | src/fastfit/menu/application/usecases/query/get_dishes_by_restaurant_use_case.py:17-26 | absent filters and an empty filter list lead to the same call |
| DishQueries.ZeroCaloriesFilters | src/fastfit/menu/application/usecases/query/get_dishes_by_restaurant_use_case.py:19 | a bound of 0 counts as given |
| DishQueries.NoCriteriaLists | src/fastfit/menu/application/usecases/query/get_dishes_by_restaurant_use_case.py:19-26 | no filters (None or empty) and no bound list the restaurant |
| Identities.PasswordIfGiven | src/fastfit/identity/domain/entity/identity.py:20 | `None` and "" give no password; anything else is kept |
| Identities.NewIdentity | src/fastfit/identity/domain/entity/identity.py:15-21 | id and username as given, and no stored password is ever "" |
| IdentityMapping.IdentityToDomain | src/fastfit/identity/infrastructure/database/postgres/sqlalchemy/mappers/identity_mapper.py:11-16 | id and username copied; a NULL or "" password loads as none |
| IdentityMapping.IdentityToPersistence | src/fastfit/identity/infrastructure/database/postgres/sqlalchemy/mappers/identity_mapper.py:19-24 | id and username copied; no password is NULL |
| IdentityMapping.IdentityDomainRowDomain | src/fastfit/identity/infrastructure/database/postgres/sqlalchemy/mappers/identity_mapper.py:11-24 | domain → row → domain is the identity |
| IdentityMapping.IdentityRowDomainRow | src/fastfit/identity/infrastructure/database/postgres/sqlalchemy/mappers/identity_mapper.py:11-24 | row → domain → row is the identity except that a "" password comes back NULL |
| IdentityServices.IdentityStore.constructor | src/fastfit/identity/application/services/identity_service.py:28-37 | the store holds the given identities and faults |
| IdentityServices.IdentityStore.ExistsByUsername | src/fastfit/identity/application/services/identity_service.py:39-40 | whether an identity is stored under the name, or the lookup fault |
| IdentityServices.IdentityStore.GetByUsername | src/fastfit/identity/application/services/identity_service.py:42-43 | the stored identity, `NotFoundError` for an unknown name, or the lookup fault |
| IdentityServices.IdentityStore.Add | src/fastfit/identity/application/services/identity_service.py:52-53 | inserts under the username, or raises the insert fault and changes nothing |
| IdentityServices.CreateIdentity | src/fastfit/identity/application/services/identity_service.py:45-57 | a lookup fault or a taken name raises at once; otherwise the next id and the hashed password, inserted once; a duplicate entry at insert becomes a taken name |
| IdentityServices.VerifyPassword | src/fastfit/identity/application/services/identity_service.py:59-72 | the lookup fault, an unknown name, no password, or a hash mismatch raise; otherwise the identity's id; the store is only read |
| IdentityServices.CreateThenVerify | src/fastfit/identity/application/services/identity_service.py:45-72 | a password verified right after creation is accepted iff the hasher matches it, with the created id |
| TokenRefresh.TokenServices.constructor | src/fastfit/auth/infrastructure/services/jwt/token_refresher.py:22-28 | holds the given tokens and no calls |
| TokenRefresh.TokenServices.Revoke | src/fastfit/auth/infrastructure/services/jwt/token_refresher.py:40 | logs one revoke call and marks the stored token revoked |
| TokenRefresh.TokenServices.Issue | src/fastfit/auth/infrastructure/services/jwt/token_refresher.py:41 | logs one issue call, returns the issuer's tokens and stores their refresh token, not revoked, for the identity |
| TokenRefresh.CheckRefreshToken | src/fastfit/auth/infrastructure/services/jwt/token_refresher.py:31-38 | unknown → InvalidTokenError, then expired → TokenExpiredError, then revoked → TokenRevokedError; else the stored token |
| TokenRefresh.ExpiryReportedBeforeRevocation | src/fastfit/auth/infrastructure/services/jwt/token_refresher.py:35-38 | an expired and revoked token is reported as expired |
| TokenRefresh.RefreshTokens | src/fastfit/auth/infrastructure/services/jwt/token_refresher.py:30-41 | a failed check makes no call and changes no token; success revokes the presented token, then issues for its identity and stores the new refresh token |
| TokenRefresh.RefreshedTokenRefused | src/fastfit/auth/infrastructure/services/jwt/token_refresher.py:35-40 | a refreshed token presented again is refused as revoked, or as expired if it has expired |
| TokenRefresh.IssuedTokenRefreshable | src/fastfit/auth/infrastructure/services/jwt/token_refresher.py:32-41 | the refresh token a refresh hands out is accepted for the same identity until it expires |
| TokenRefresh.RefreshTwice | src/fastfit/auth/infrastructure/services/jwt/token_refresher.py:30-41 | presenting the same token twice: after a successful first refresh the second fails with `TokenRevokedError` or `TokenExpiredError` |
| VerifyCode.Execute | src/fastfit/auth/application/usecases/command/verify_code_use_case.py:25-35 | a found identity gets tokens, whose refresh token is stored, and nothing is created; `NotFoundError` creates one named by the phone whose password is the hasher's result for `None`, which gets tokens; a lookup fault or an insert fault raises that fault (a duplicate entry as `UsernameTaken`), with the store unchanged and no tokens; other errors propagate with nothing done |

## Left out

- Concurrency: the unit of work's per-task `ContextVar` is one field, and async/await is sequential code.
- HTTP presentation, application wiring, dependency-injection containers, logging and the command-line scripts are not modelled.
- SQLAlchemy queries and ORM models: stores are maps. The order store keeps the not-found `ValueError` rule. The identity store stands for its repository, with one optional fault for inserts and one for lookups, which both `exists_by_username` and `get_by_username` raise.
- The read repositories and the dish query's two read calls: `DishQueries.ChooseRead` states which call is made, not what it returns.
- Pass-through use cases, interfaces, DTOs, read models and read mappers have no row of their own.
- `create_dish_use_case.py` is not part of this model. It passes an `image` that its command type does not define.
- The dish `image` column is carried as an opaque optional value. The ORM model for dishes has no such column.
- The username, password and phone-number value objects, the password hasher, and the JWT issuer, revoker and expiry test are not part of this model. They are opaque strings and function parameters.
- The refresh-token store is a map from token text to its identity and revoked flag. The revoker is taken to mark the stored token revoked, and the issuer to store its new refresh token, not revoked; their own files are not part of this model.
- TokenRefresh.RefreshedTokenRefused: it assumes the issuer hands out a refresh token different from the one presented. If the issuer repeated it, the new entry would replace the revoked one.
- The order id that `uuid4()` draws in the create-order use case is an input of `CreateOrder.Execute`, which does not require it to be unused. In the model, storing an order under an id already in the store replaces that row. The database would refuse the duplicate primary key when the session flushes; flushing is not modelled.
- Exception text:
  - The exception classes outside `common/domain/exceptions.py` are not part of this model.
  - Application errors are assumed to keep Python's default `str()`.
  - `Errors.QuotedList` pastes each argument between single quotes. Python's tuple repr also escapes quotes and backslashes, and it uses double quotes for an argument that contains `'`.
  - The `RepositoryError` built from another storage exception takes SQLAlchemy's own `__str__` of it. The model uses `Errors.Str`, the default rendering.
  - Token, identity and username errors are assumed to derive from `ApplicationError`.
- Python's `\w` also matches non-ASCII letters and digits. `Transactions.IsWordChar` covers ASCII only.
- Exception chaining (`from e`, `cause=`) is not modelled. It does not change which exception is raised.
- IdentityServices.CreateIdentity: hashing is a pure parameter, so the model cannot show that a taken username is refused without calling the hasher. It only shows that nothing is inserted and no id is drawn.
- Transactions.HandleException: its own contract states only the first two branches. The other branches are stated by `Transactions.TranslationTable` and `Transactions.DatabaseErrorTranslation`.
- NutritionalValues.FirstNegative: its contract states only when no field is named. Which field is named is stated for the four nutrients by `NutritionalValues.FirstNegativeFieldReported`.
- Transactions.UnitOfWork: it follows the code as written, using `FinalizePlan`. The corrected `FinalizePlanReleasing` is stated and related to it, but the class does not use it.

## Findings

| source | as written | input that shows it | evidently intended | confidence | as-written member | corrected member |
|---|---|---|---|---|---|---|
| src/fastfit/menu/domain/factories/dish_factory.py:24-34 | `Dish.create` is called without its required `image` argument, so every valid input ends in `TypeError`, after an id was drawn | any input with a non-blank name, a valid price and nutrition, and a non-empty ingredient list | the dish is created with no image | high (not executed) | DishFactories.CreateDishAsWritten, DishFactories.FactoryAsWrittenNeverSucceeds | DishFactories.CreateDish |
| src/common/infrastructure/database/sqlalchemy/unit_of_work.py:111-125 | a commit (or rollback, or close) that raises at the outermost scope skips `close()` and `_reset_session()`, so the transaction stays installed at level 0 | a session whose commit raises, followed by another scope in the same context: it runs at level 1 and never commits | the outermost scope always releases the session and clears the transaction, in a `finally` | medium (not executed) | Transactions.FailedCommitKeepsTransaction, Transactions.LaterScopesNeverCommit | Transactions.FinalizePlanReleasing, Transactions.ReleasingAgreesUnlessKept |
