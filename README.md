# Template service core, modelled in Dafny

A model of the core of the "Template" CRUD service. The service is a layered Python
backend with three near-identical variants: `modules/template` has an integer value and a
version; `modules/template_module` has a string value and a version; `apps/template_app`
has a string value and no version. The model covers:

- the three `Template` aggregates, as classes whose methods update their fields. Each
  method is proved against a pure function on the entity's attributes (`Record`);
- the in-process `MessageBus`. It is a class with a FIFO queue, proved against a recursive
  specification of the drain loop (`Drain`, `Dispatch`, `Invoke`). Handlers are a given
  function from a handler and a message to the messages it publishes through a nested
  `handle`, and to what it returns or raises;
- the handler tables of the `template` module;
- the unit-of-work protocol: the abstract base class and the three SQLAlchemy units of
  work. The database is the unit's `durable` map; a session holds a working copy;
- the two SQLAlchemy domain repositories and their value/entity/row mappers, over a table
  of rows keyed by id;
- the command services of the three variants, over those units of work and the bus;
- the test doubles that stand in for them. These are two in-memory repositories holding a
  Python set of entities, their query repositories (`_filter`, `_order`, `_paginate`,
  `list`), `FakeTemplateUnitOfWork` and `FakeMessageBus`;
- `OrderingForm.create_ordering`, the pagination links, and the `Pagination` dataclass.

Files, one module each: `common` (errors, `Result`, `Outcome`), `messages` (event and
command datatypes), `int_template`, `text_template`, `app_template`, `message_bus` (module
`Bus`), `fake_bus`, `handlers`, `unit_of_work`, `int_rows`, `text_rows`, `int_memory`,
`text_memory`, `fake_queries`, `template_services`, `module_services`, `app_services`,
`ordering` (module `OrderingForm`), `pagination_links`, `pagination_dto` and `text_ops`.
`text_ops` holds the few string built-ins the source relies on.

The clock reading (`now`), the fresh UUID (`freshId`) and `str(id)` (`idText`) are
parameters. The iteration order of a Python set (`iter`) is a parameter too.

## Model

| member | source | states |
|---|---|---|
| IntTemplate.Assigned | backend/modules/template/domain/entities/template.py:31-38 | fails with InvalidTemplateValue iff v <= 0; on success the value is v, the version is one higher, and id, timestamp and messages are untouched |
| IntTemplate.Subtracted | backend/modules/template/domain/entities/template.py:40-48 | fails iff value - amount <= 0, so a negative amount is accepted; on success the value is value - amount (> 0), the version is one higher, and id and timestamp are untouched |
| IntTemplate.AssignedAllRaisesVersion | backend/tests/integrated/template/services/commands/test_commands.py:46-55 | k successful `set_value` calls raise the version by exactly k and leave the last value; id and timestamp are kept |
| IntTemplate.AssignedAllFailsOnInvalid | backend/modules/template/domain/entities/template.py:31-35 | one non-positive value anywhere in a run of sets makes the run fail with InvalidTemplateValue |
| IntTemplate.SubtractScenario | backend/tests/unit/template/domain/entities/test_template.py:39-68 | 100 - 99 gives value 1 at version 2; subtracting 1 more fails |
| IntTemplate.Template.constructor | backend/modules/template/domain/entities/template.py:16-21 | a new template has value 0, the given id, timestamp and version, and no messages |
| IntTemplate.Template.SetValue | backend/modules/template/domain/entities/template.py:31-38 | the new attributes are `Assigned` of the old ones; a failure changes nothing |
| IntTemplate.Template.SubtractValue | backend/modules/template/domain/entities/template.py:40-48 | returns the new value and stores `Subtracted` of the old attributes; a failure changes nothing |
| IntTemplate.HashRespectsEquality | backend/modules/template/domain/entities/template.py:53-57 | equal templates hash alike; the hash depends on the id only |
| TextTemplate.Assigned | backend/modules/template_module/domain/entities/template.py:44-50 | succeeds iff the value is a non-empty string; then the value is replaced and the version is one higher; the timestamp is not touched |
| TextTemplate.Refreshed | backend/modules/template_module/domain/entities/template.py:12-21 | as `Assigned`, and the timestamp becomes `now` only on success |
| TextTemplate.RefreshedAllRaisesVersion | backend/modules/template_module/domain/entities/template.py:12-21 | k successful sets raise the version by k and leave the last value and the last clock reading |
| TextTemplate.Template.constructor | backend/modules/template_module/domain/entities/template.py:29-34 | a new template has value `None` and the given id, timestamp and version |
| TextTemplate.Template.SetValue | backend/modules/template_module/domain/entities/template.py:44-50 | the new attributes are `Assigned` of the old ones; `""`, `None` and non-strings change nothing |
| TextTemplate.SetTemplateValue | backend/modules/template_module/domain/entities/template.py:12-21 | the new attributes are `Refreshed` of the old ones; a failure leaves the timestamp as it was |
| AppTemplate.Assigned | backend/apps/template_app/domain/entities/template.py:31-36 | succeeds iff the value is a non-empty string; then the value is `Some(v)` and id and timestamp are kept |
| AppTemplate.Refreshed | backend/apps/template_app/domain/entities/template.py:9-18 | on success the entity is exactly (id, `Some(v)`, `now`); it fails iff `Assigned` fails |
| AppTemplate.RefreshedAdvancesClock | backend/apps/template_app/domain/entities/template.py:9-18 | with a later clock reading, a successful set advances the timestamp |
| AppTemplate.Template.constructor | backend/apps/template_app/domain/entities/template.py:26-29 | a new entity has value `None` and no version |
| AppTemplate.Template.SetValue | backend/apps/template_app/domain/entities/template.py:31-36 | the new attributes are `Assigned` of the old ones; a failure changes nothing |
| AppTemplate.SetTemplateValue | backend/apps/template_app/domain/entities/template.py:9-18 | the new attributes are `Refreshed` of the old ones; a failure changes nothing |
| Bus.MessagesOf | backend/modules/common/message_bus.py:62-69 | keeps exactly the elements that are messages, and only those |
| Bus.MessagesOfAppend | backend/modules/common/message_bus.py:62-65 | filtering distributes over concatenation, so message order is kept |
| Bus.Collected | backend/modules/common/message_bus.py:59-69 | a single message is appended; a sequence gives its messages in order; a Template gives its `.messages`; anything else gives nothing |
| Bus.Drain | backend/modules/common/message_bus.py:21-34 | the drain only appends to the calls made so far, and it returns normally only with an empty queue |
| Bus.DrainStepReturning | backend/modules/common/message_bus.py:24-69 | one loop turn on a message whose handlers return without a nested call: they are called as registered, and what they return is queued behind everything already waiting, in call order, before the loop goes on |
| Bus.DrainStepQuiet | backend/modules/common/message_bus.py:24-47 | one loop turn on a message whose handlers collect nothing: they are called and the loop goes on with the rest of the queue |
| Bus.InvokeReturning | backend/modules/common/message_bus.py:44-47 | a handler that returns without a nested call is called once and its collected messages join the back of the queue |
| Bus.InvokeAllReturning | backend/modules/common/message_bus.py:44-47 | returning handlers of an event run once each in list order, each one's collected messages appended after those of the handlers before it |
| Bus.DispatchReturning | backend/modules/common/message_bus.py:36-57 | a message whose handlers return normally calls exactly its registered handlers and appends their collected messages in call order |
| Bus.DrainChainOfTwo | backend/modules/common/message_bus.py:21-69 | a message whose handlers return one follow-up, whose own handlers return none, is handled in one `handle`: both handler sets run once, in that order, and the queue ends empty |
| Bus.CollectedMessageIsHandled | backend/tests/unit/template_module/test_message_bus.py:64-96 | a `DomainEvent` returned by the `SubEvent` handler, alone or in a list, is dispatched in the same `handle`; each handler is called exactly once and the queue ends empty |
| Bus.Dispatch | backend/modules/common/message_bus.py:24-34 | one loop pass only appends to the calls made so far |
| Bus.InvokeAll | backend/modules/common/message_bus.py:44-47 | the handlers of an event run in list order, and calls are only appended |
| Bus.Invoke | backend/modules/common/message_bus.py:44-47 | one handler call records exactly that call next |
| Bus.CallsOf | backend/modules/common/message_bus.py:44-45 | one call per handler, in list order |
| Bus.InvokeQuiet | backend/modules/common/message_bus.py:44-47 | a quiet handler is called once and leaves the queue as it was |
| Bus.InvokeAllQuiet | backend/modules/common/message_bus.py:44-47 | each quiet handler of an event is called once, in list order |
| Bus.DispatchQuiet | backend/modules/common/message_bus.py:36-57 | a message goes to exactly the handlers registered under its exact type |
| Bus.DrainQuietIsFifo | backend/modules/common/message_bus.py:21-34 | when no handler collects anything or makes a nested call, the messages are dispatched strictly FIFO, each handler runs once, and the queue ends empty |
| Bus.UnregisteredRaises | backend/modules/common/message_bus.py:31-55 | an unregistered event or command type, or a non-message, raises NotImplementedError before any handler runs; the rest stays queued |
| Bus.RaisingHandlerPropagates | backend/modules/common/message_bus.py:49-57 | a handler's exception propagates, a KeyError as NotImplementedError; the handler is called once and the unprocessed messages stay in the queue |
| Bus.NestedHandleDrainsSharedQueue | backend/modules/common/message_bus.py:21-25 | a command handler that passes messages to a nested `handle` has the effect of one call followed by draining the messages already queued and then its own, from the same shared queue; a KeyError escaping the nested call surfaces as NotImplementedError |
| Bus.MessageBus.constructor | backend/modules/common/message_bus.py:12-19 | a new bus has the given tables and an empty queue |
| Bus.MessageBus.Handle | backend/modules/common/message_bus.py:21-34 | queue, calls and status are those of `Handled` (extend, then `Drain`); normal return only with an empty queue |
| Bus.MessageBus.HandleMessage | backend/modules/common/message_bus.py:24-34 | the loop body has the effect of `Dispatch` |
| Bus.MessageBus.HandleEvent | backend/modules/common/message_bus.py:36-47 | `handle_event` has the effect of `Dispatch` on an event |
| Bus.MessageBus.HandleCommand | backend/modules/common/message_bus.py:49-57 | `handle_command` has the effect of `Dispatch` on a command |
| Bus.MessageBus.RunHandler | backend/modules/common/message_bus.py:44-47 | one handler call has the effect of `Invoke` |
| Bus.MessageBus.CollectNewMessages | backend/modules/common/message_bus.py:59-69 | the queue grows by exactly `Collected(result)` |
| FakeBus.EmailsFor | backend/tests/integrated/template_module/fakers.py:176-180 | one email iff the message is a `template_module` TemplateValueSet event (string payload), otherwise none; the `modules.template` class (integer payload) sends none |
| FakeBus.EmailsForAll | backend/tests/integrated/template_module/fakers.py:165-180 | a queue sends at most one email per message |
| FakeBus.EmailsForAllAppend | backend/tests/integrated/template_module/fakers.py:165-174 | the email count of two batches is the sum of their counts |
| FakeBus.EmailsForAllBounds | backend/tests/integrated/template_module/fakers.py:176-180 | a batch of `template_module` TemplateValueSet events sends one email each; a batch with none sends none |
| FakeBus.FakeMessageBus.constructor | backend/tests/integrated/template_module/fakers.py:161-163 | a new fake bus has an empty queue |
| FakeBus.FakeMessageBus.Handle | backend/tests/integrated/template_module/fakers.py:165-174 | the queue ends empty and one email is sent per `template_module` TemplateValueSet event in the old queue and the batch, in that order; it never raises |
| FakeBus.FakeMessageBus.HandleEvent | backend/tests/integrated/template_module/fakers.py:176-180 | only the `template_module` TemplateValueSet sends an email |
| Handlers.EventsRegistered | backend/modules/template/services/handlers/__init__.py:25-30 | an event class has an entry iff it is one of the module's, so the `template_module` TemplateValueSet has none; the module's TemplateValueSet has exactly the notification handler and the others have none |
| Handlers.CommandsRegistered | backend/modules/template/services/handlers/__init__.py:33-38 | each of the four commands maps to exactly its service |
| Handlers.ForeignValueSetRaises | backend/modules/template/services/handlers/__init__.py:25-30 | a `template_module` TemplateValueSet (string payload) has no entry in this module's event table, so dispatching it raises NotImplementedError before any handler runs; the rest stays queued |
| Handlers.SilentEventsAreNoOps | backend/modules/template/services/handlers/__init__.py:27-29 | dispatching TemplateCreated, TemplateDeleted or TemplateValueSubtracted calls nothing and changes nothing |
| Handlers.SetValueCommandNotifiesOnce | backend/modules/template/services/handlers/__init__.py:25-38 | a SetTemplateValue command runs its service once, then the notification once, and the queue ends empty |
| Handlers.ServiceCommandEffect | backend/modules/template/services/commands/commands.py:31-109 | with services behaving as their transactions on the committed table: a failed block makes `handle` raise its exception (a KeyError as NotImplementedError) with the queue behind the command intact; a committed one collects nothing from the result and drains the waiting messages followed by the published event |
| UnitOfWork.Applied | backend/modules/template/adapters/unit_of_work.py:38-42 | commit makes the working copy durable; rollback and close discard it; close marks the session closed |
| UnitOfWork.ExitCalls | backend/modules/template/adapters/unit_of_work.py:21-29 | exit commits iff no exception, else rolls back; then it closes; then the base class rolls back |
| UnitOfWork.ExitEffect | backend/modules/template/adapters/unit_of_work.py:21-29 | afterwards the database holds the working copy iff nothing was raised, else the old rows; the session ends closed; the trailing rollback does not undo a commit |
| UnitOfWork.ExitCallCounts | backend/modules/common/ports/unit_of_work/unit_of_work.py:10-11 | exit closes once and commits at most once; the base rollback runs once more |
| UnitOfWork.NoSession | backend/modules/template/adapters/unit_of_work.py:31-36 | use before the first enter raises RuntimeError in the guarded units and AttributeError in the application unit |
| UnitOfWork.SqlUnitOfWork.constructor | backend/modules/template/adapters/unit_of_work.py:12-14 | a new unit has no session |
| UnitOfWork.SqlUnitOfWork.SessionOrRaised | backend/modules/template/adapters/unit_of_work.py:31-36 | the `session` property gives the session iff there is one, else the `NoSession` error |
| UnitOfWork.SqlUnitOfWork.Enter | backend/modules/template/adapters/unit_of_work.py:16-19 | enter opens a fresh session on the durable rows and returns the unit itself |
| UnitOfWork.SqlUnitOfWork.Commit | backend/modules/template/adapters/unit_of_work.py:38-39 | with a session, the working copy becomes durable; without one, it raises |
| UnitOfWork.SqlUnitOfWork.Rollback | backend/modules/template/adapters/unit_of_work.py:41-42 | with a session, the working copy is discarded; without one, it raises |
| UnitOfWork.SqlUnitOfWork.CloseSession | backend/modules/template/adapters/unit_of_work.py:27 | closing discards the working copy and marks the session closed |
| UnitOfWork.SqlUnitOfWork.Exit | backend/modules/template/adapters/unit_of_work.py:21-29 | with a session, the block's exception propagates unchanged and the session calls are exactly `ExitCalls`; before an enter it raises |
| UnitOfWork.WithBlock | backend/modules/template_module/services/unit_of_work.py:15-28 | a `with` block commits its working copy iff it raised nothing, and its exception propagates |
| IntRows.ValueToData | backend/modules/template/adapters/repositories/sqlalchemy/repositories.py:230-235 | the dictionary holds the value under the value key, with `None` stored as 0 |
| IntRows.DataToValue | backend/modules/template/adapters/repositories/sqlalchemy/repositories.py:238-239 | reads the value key; a dictionary without the key raises KeyError |
| IntRows.ValueRoundTrip | backend/modules/template/adapters/repositories/sqlalchemy/repositories.py:230-239 | an integer value round-trips through the dictionary |
| IntRows.EntityToRow | backend/modules/template/adapters/repositories/sqlalchemy/repositories.py:205-213 | the row keeps id, timestamp and version, and stores the value |
| IntRows.RowToEntity | backend/modules/template/adapters/repositories/sqlalchemy/repositories.py:216-227 | the entity keeps id, timestamp and version; the value is loaded without validation or a version bump |
| IntRows.EntityRoundTrip | backend/modules/template/adapters/repositories/sqlalchemy/repositories.py:205-227 | entity to row and back gives the entity without its pending messages |
| IntRows.RowRoundTrip | backend/modules/template/adapters/repositories/sqlalchemy/repositories.py:205-227 | a mapped row reads back to itself |
| IntRows.Created | backend/modules/template/adapters/repositories/sqlalchemy/repositories.py:40-41 | the row is added iff the id is new; a duplicate id raises IntegrityError |
| IntRows.Fetched | backend/modules/template/adapters/repositories/sqlalchemy/repositories.py:72-83 | gives the mapped entity of the row with that id; TemplateDoesNotExist when there is none |
| IntRows.Updated | backend/modules/template/adapters/repositories/sqlalchemy/repositories.py:43-60 | overwrites the row of the entity's id; an absent id gives AttributeError from `setattr` on `None` |
| IntRows.Deleted | backend/modules/template/adapters/repositories/sqlalchemy/repositories.py:62-70 | removes exactly that id; TemplateDoesNotExist when it is absent |
| IntRows.FetchAfterCreate | backend/modules/template/adapters/repositories/sqlalchemy/repositories.py:40-41 | what was created reads back as the entity; other rows are untouched |
| IntRows.FetchAfterUpdate | backend/modules/template/adapters/repositories/sqlalchemy/repositories.py:43-60 | what was updated reads back as the entity; other rows are untouched |
| IntRows.FetchAfterDelete | backend/modules/template/adapters/repositories/sqlalchemy/repositories.py:62-70 | after a delete the id is gone; other rows are untouched |
| IntRows.Create | backend/modules/template/adapters/repositories/sqlalchemy/repositories.py:40-41 | the session's working copy becomes `Created` |
| IntRows.Get | backend/modules/template/adapters/repositories/sqlalchemy/repositories.py:72-83 | a fresh entity object holding `Fetched`, or its error |
| IntRows.Update | backend/modules/template/adapters/repositories/sqlalchemy/repositories.py:43-60 | the session's working copy becomes `Updated`, or the error |
| IntRows.Delete | backend/modules/template/adapters/repositories/sqlalchemy/repositories.py:62-70 | the session's working copy becomes `Deleted`, or the error |
| TextRows.ValueToData | backend/modules/template_module/adapters/repositories/sqlalchemy/repository.py:223-228 | the dictionary holds exactly the value under the value key, `None` included |
| TextRows.DataToValue | backend/modules/template_module/adapters/repositories/sqlalchemy/repository.py:231-232 | reads the value key; a missing key reads as `None` |
| TextRows.ValueRoundTrip | backend/modules/template_module/adapters/repositories/sqlalchemy/repository.py:223-232 | every value, `None` included, round-trips; a dictionary without the key reads `None` |
| TextRows.EntityToRow | backend/modules/template_module/adapters/repositories/sqlalchemy/repository.py:198-206 | the row keeps id, timestamp and version, and its data reads back as the value |
| TextRows.RowToEntity | backend/modules/template_module/adapters/repositories/sqlalchemy/repository.py:209-220 | the entity keeps id, timestamp and version; the value is loaded without validation |
| TextRows.EntityRoundTrip | backend/modules/template_module/adapters/repositories/sqlalchemy/repository.py:198-220 | entity to row and back keeps id, value, timestamp and version |
| TextRows.Created | backend/modules/template_module/adapters/repositories/sqlalchemy/repository.py:33-39 | insert-if-absent: a row is added only when the id is new; otherwise nothing changes |
| TextRows.Fetched | backend/modules/template_module/adapters/repositories/sqlalchemy/repository.py:67-78 | the mapped entity, or TemplateDoesNotExist iff the id is absent |
| TextRows.Updated | backend/modules/template_module/adapters/repositories/sqlalchemy/repository.py:41-55 | overwrites the row of the entity's id; TemplateDoesNotExist iff the id is absent |
| TextRows.Deleted | backend/modules/template_module/adapters/repositories/sqlalchemy/repository.py:57-65 | removes exactly that id; TemplateDoesNotExist iff it is absent |
| TextRows.CreateKeepsStoredRow | backend/modules/template_module/adapters/repositories/sqlalchemy/repository.py:33-39 | creating a stored id reads back the old row, not the entity |
| TextRows.FetchAfterWrite | backend/modules/template_module/adapters/repositories/sqlalchemy/repository.py:33-55 | creating a new id or updating a stored one reads back as the entity |
| TextRows.Create | backend/modules/template_module/adapters/repositories/sqlalchemy/repository.py:33-39 | the session's working copy becomes `Created` |
| TextRows.Get | backend/modules/template_module/adapters/repositories/sqlalchemy/repository.py:67-78 | a fresh entity object holding `Fetched`, or its error |
| TextRows.Update | backend/modules/template_module/adapters/repositories/sqlalchemy/repository.py:41-55 | the session's working copy becomes `Updated`, or the error |
| TextRows.Delete | backend/modules/template_module/adapters/repositories/sqlalchemy/repository.py:57-65 | the session's working copy becomes `Deleted`, or the error |
| IntMemory.Without | backend/tests/unit/template/fakers.py:23-24 | `remove`: exactly the elements equal to x are dropped |
| IntMemory.Added | backend/tests/unit/template/fakers.py:25 | `add`: x is added unless an equal element is already there |
| IntMemory.WithoutId | backend/tests/unit/template/fakers.py:27-28 | keeps exactly the elements with another id |
| IntMemory.RemoveStored | backend/tests/unit/template/fakers.py:27-28 | with unique ids, removing a stored entity removes exactly its id, and ids stay unique |
| IntMemory.AddKeepsUniqueIds | backend/tests/unit/template/fakers.py:40-42 | adding an entity with a new id adds it and keeps ids unique |
| IntMemory.CreateStoredIsNoOp | backend/tests/unit/template/fakers.py:21-25 | re-creating a stored entity (the object `get` returned) changes nothing |
| IntMemory.TestTemplatesRepository.constructor | backend/tests/unit/template/fakers.py:18-19 | the repository holds the given entities |
| IntMemory.TestTemplatesRepository.Get | backend/tests/unit/template/fakers.py:30-38 | a stored entity with that id iff there is one, else TemplateDoesNotExist |
| IntMemory.TestTemplatesRepository.Create | backend/tests/unit/template/fakers.py:21-25 | an equal entity is removed first, then the entity is added |
| IntMemory.TestTemplatesRepository.Delete | backend/tests/unit/template/fakers.py:27-28 | fails iff no entity has the id, changing nothing; otherwise only that entity is removed |
| IntMemory.TestTemplatesRepository.Update | backend/tests/unit/template/fakers.py:40-42 | fails iff no entity has the id, changing nothing; otherwise the entity with that id is replaced and nothing else changes |
| IntMemory.List | backend/tests/unit/template/fakers.py:59-71 | the count is the number of entities returned, after pagination |
| IntMemory.ListMatches | backend/tests/unit/template/fakers.py:59-121 | succeeds iff no sort has to compare different values; returns only stored entities passing the id query and the inclusive timestamp bounds, and all of them without a page |
| TextMemory.Without | backend/tests/integrated/template_module/fakers.py:39-40 | `remove`: exactly the elements equal to x are dropped |
| TextMemory.Added | backend/tests/integrated/template_module/fakers.py:41 | `add`: x is added unless an equal element is already there |
| TextMemory.WithoutId | backend/tests/integrated/template_module/fakers.py:43-44 | keeps exactly the elements with another id |
| TextMemory.RemoveStored | backend/tests/integrated/template_module/fakers.py:43-44 | with unique ids, removing a stored entity removes exactly its id |
| TextMemory.AddKeepsUniqueIds | backend/tests/integrated/template_module/fakers.py:56-58 | adding an entity with a new id adds it and keeps ids unique |
| TextMemory.CreateStoredIsNoOp | backend/tests/integrated/template_module/fakers.py:37-41 | re-creating the stored object changes nothing |
| TextMemory.FakeTemplateRepository.constructor | backend/tests/integrated/template_module/fakers.py:34-35 | the repository holds the given entities |
| TextMemory.FakeTemplateRepository.Get | backend/tests/integrated/template_module/fakers.py:46-54 | a stored entity with that id iff there is one, else TemplateDoesNotExist |
| TextMemory.FakeTemplateRepository.Create | backend/tests/integrated/template_module/fakers.py:37-41 | an equal entity is removed first, then the entity is added |
| TextMemory.FakeTemplateRepository.Delete | backend/tests/integrated/template_module/fakers.py:43-44 | fails iff no entity has the id; otherwise only that entity is removed |
| TextMemory.FakeTemplateRepository.Update | backend/tests/integrated/template_module/fakers.py:56-58 | fails iff no entity has the id; otherwise the entity with that id is replaced |
| TextMemory.List | backend/tests/integrated/template_module/fakers.py:75-87 | the count is the number of entities returned, after pagination |
| TextMemory.ListMatches | backend/tests/integrated/template_module/fakers.py:75-139 | succeeds iff every ordering entry is present and no sort has to compare different values; returns only stored entities passing the value, id-query and timestamp filters, and all of them without a page |
| TextMemory.FakeTemplateUnitOfWork.constructor | backend/tests/integrated/template_module/fakers.py:149-151 | a new fake unit holds a fresh repository of the entities and is not committed |
| TextMemory.FakeTemplateUnitOfWork.Enter | backend/modules/common/ports/unit_of_work/unit_of_work.py:7-8 | enter returns the unit itself |
| TextMemory.FakeTemplateUnitOfWork.Commit | backend/tests/integrated/template_module/fakers.py:153-154 | commit sets `committed` |
| TextMemory.FakeTemplateUnitOfWork.Exit | backend/modules/common/ports/unit_of_work/unit_of_work.py:10-11 | exit only calls the no-op rollback, so it changes nothing (`committed` stays false in a `with`), and the exception propagates |
| FakeQueries.Filter | backend/tests/unit/template/fakers.py:73-99 | keeps exactly the entities with an equal value (when given), whose `str(id)` contains the query ignoring case, and whose timestamp lies within the inclusive bounds |
| FakeQueries.Order | backend/tests/unit/template/fakers.py:101-121 | on success it returns its input unchanged; it fails only with TypeError or AttributeError |
| FakeQueries.OrderPasses | backend/tests/unit/template/fakers.py:101-121 | `_order` succeeds iff it gets past every entry; otherwise the first entry it cannot pass decides the exception |
| FakeQueries.OrderComparable | backend/tests/unit/template/fakers.py:101-121 | with at most one distinct value, `_order` is the identity |
| FakeQueries.PySlice | backend/tests/unit/template/fakers.py:127-128 | Python slicing with clamped bounds: the length is bounded and every element comes from the list |
| FakeQueries.Paginate | backend/tests/unit/template/fakers.py:123-128 | a page holds only listed entities |
| FakeQueries.PaginateSize | backend/tests/unit/template/fakers.py:123-128 | a page holds `records_per_page` entities, or those that remain past the offset |
| FakeQueries.List | backend/tests/unit/template/fakers.py:59-71 | the count is the size of the returned set, and the entities come from the filtered set |
| FakeQueries.ListContents | backend/tests/unit/template/fakers.py:59-71 | without a page, exactly the filtered entities; with one, at most `records_per_page` of them |
| TemplateServices.CreateEffect | backend/modules/template/services/commands/commands.py:42-58 | a fresh id gets a row with value 0 and version 1, announced by TemplateCreated with its id and timestamp; a taken id raises IntegrityError |
| TemplateServices.DeleteEffect | backend/modules/template/services/commands/commands.py:63-71 | removes exactly that id and announces it; an absent id raises TemplateDoesNotExist |
| TemplateServices.SetValueEffect | backend/modules/template/services/commands/commands.py:74-86 | succeeds iff the id is stored and v > 0; stores v at version + 1 and announces TemplateValueSet; otherwise TemplateDoesNotExist or InvalidTemplateValue |
| TemplateServices.SubtractEffect | backend/modules/template/services/commands/commands.py:89-109 | stores old - amount (positive) at version + 1 and announces TemplateValueSubtracted with that final value; otherwise the error |
| TemplateServices.SetValueAllRaisesVersion | backend/tests/integrated/template/services/commands/test_commands.py:46-55 | k committed sets raise the stored version by k and leave the last value |
| TemplateServices.CreateTemplate | backend/modules/template/services/commands/commands.py:31-60 | commits the new row, then publishes TemplateCreated only after a successful exit; returns the id and timestamp |
| TemplateServices.DeleteTemplate | backend/modules/template/services/commands/commands.py:63-71 | commits the delete, then publishes; on an error nothing is committed or published |
| TemplateServices.SetTemplateValue | backend/modules/template/services/commands/commands.py:74-86 | commits `SetValueTx`, then publishes its event; a validation failure publishes nothing |
| TemplateServices.SubtractTemplateValue | backend/modules/template/services/commands/commands.py:89-109 | commits `SubtractTx`, then publishes its event; a failure publishes nothing |
| ModuleServices.NewTemplate | backend/modules/template_module/services/commands/commands.py:39-43 | the new entity has value `None`, version 1 and the creation time |
| ModuleServices.CreateEffect | backend/modules/template_module/services/commands/commands.py:46-52 | a new id is stored as `NewTemplate`; a stored id keeps its row; other rows are untouched; TemplateCreated is published |
| ModuleServices.DeleteEffect | backend/modules/template_module/services/commands/commands.py:57-68 | removes exactly that id and publishes TemplateDeleted; an absent id raises TemplateDoesNotExist |
| ModuleServices.SetValueEffect | backend/modules/template_module/services/commands/commands.py:86-98 | with the write-back through update: succeeds iff the id is stored and the value acceptable; stores the value at version + 1 with timestamp `now` (strictly later when the clock moved on); publishes TemplateValueSet |
| ModuleServices.SetValueAsWrittenLosesUpdate | backend/modules/template_module/services/commands/commands.py:86-89 | the write-back through `create` commits the table unchanged yet publishes TemplateValueSet; the corrected version stores one version more |
| ModuleServices.SetValueAllRaisesVersion | backend/modules/template_module/services/commands/commands.py:86-98 | k committed sets raise the stored version by k and store what `set_template_value` gives for each value in turn |
| ModuleServices.TwoSets | backend/tests/integrated/template_module/test_services/test_template_services.py:155-198 | two sets from version 1 give version 3, the second value and two notification emails; as written, the stored version stays 1 |
| ModuleServices.ErrorOf | backend/modules/template_module/services/commands/commands.py:46-52 | an exception out of `handle` reaches the `with` block; normal return means none |
| ModuleServices.CreateTemplate | backend/modules/template_module/services/commands/commands.py:28-54 | publishes inside the block; the new row is committed unless the bus raised, which rolls it back and propagates |
| ModuleServices.DeleteTemplate | backend/modules/template_module/services/commands/commands.py:57-68 | an absent id raises with nothing published; otherwise the delete is committed unless the bus raised |
| ModuleServices.SetTemplateValue | backend/modules/template_module/services/commands/commands.py:71-98 | the corrected service: commits `SetValueTx` unless validation or the bus raised; a failed validation publishes nothing |
| ModuleServices.SetTemplateValueAsWritten | backend/modules/template_module/services/commands/commands.py:71-98 | the service as written: commits `SetValueTxAsWritten`, i.e. the unchanged table, while still publishing |
| ModuleServices.SetTemplateValueOnFakes | backend/modules/template_module/services/commands/commands.py:86-98 | on the fakes, the aliased entity is updated in place (`Refreshed`); the set of objects stays as it was and nothing is committed; one email is sent; failures publish nothing |
| AppServices.Saved | backend/apps/template_app/adapters/repositories/sqlalchemy/repository.py:10-11 | `save` stores the entity's state under its id and leaves other ids alone |
| AppServices.Fetched | backend/apps/template_app/adapters/repositories/sqlalchemy/repository.py:13-14 | the state stored under the id, or TemplateDoesNotExist iff it is absent |
| AppServices.CreateStoresNewTemplate | backend/apps/template_app/services/template_services.py:13-19 | creating succeeds iff the id is not stored; then the new entity is stored with value `None` at the creation time and other ids are untouched; a stored id raises IntegrityError |
| AppServices.ValueSetEffect | backend/apps/template_app/services/template_services.py:39-42 | succeeds iff the id is stored and the value acceptable; then the value and the new (later) timestamp are stored; otherwise TemplateDoesNotExist or InvalidTemplateValue |
| AppServices.Save | backend/apps/template_app/adapters/repositories/sqlalchemy/repository.py:10-11 | the session's working copy becomes `Saved` |
| AppServices.Get | backend/apps/template_app/adapters/repositories/sqlalchemy/repository.py:13-14 | a fresh entity holding the stored state, or TemplateDoesNotExist |
| AppServices.CreateTemplate | backend/apps/template_app/services/template_services.py:8-21 | for a new id, returns the new entity's state and commits it; for a stored id, raises IntegrityError, rolls back and commits nothing |
| AppServices.SetTemplateValue | backend/apps/template_app/services/template_services.py:24-42 | commits `ValueSet`, or propagates its error with the database unchanged |
| OrderingForm.FieldOrdering | backend/modules/common/entrypoints/web/forms.py:22-28 | `None` iff the part is blank; a leading `-` gives DESCENDING on the rest; otherwise ASCENDING on the part verbatim |
| OrderingForm.FieldOrderingRoundTrip | backend/modules/common/entrypoints/web/forms.py:22-28 | parsing inverts rendering, and rendering inverts parsing on every non-blank part |
| OrderingForm.CreateOrdering | backend/modules/common/entrypoints/web/forms.py:11-20 | `None` iff the first part is blank; otherwise one entry per comma-separated part, in order |
| OrderingForm.CreateOrderingRoundTrip | backend/modules/common/entrypoints/web/forms.py:11-20 | rendering a list of orderings and parsing it back gives the list |
| OrderingForm.SingleField | backend/modules/common/entrypoints/web/forms.py:11-28 | `-f` gives [(f, DESC)] and `f` gives [(f, ASC)] |
| OrderingForm.BlankEntry | backend/modules/common/entrypoints/web/forms.py:17-24 | a blank first part discards the list; a blank later part stays as `None` |
| PaginationLinks.Put | backend/modules/common/pagination/utils.py:15 | a dictionary update sets the key and keeps the other keys |
| PaginationLinks.ToDict | backend/modules/common/pagination/utils.py:14 | `dict(parse_qsl(...))` has distinct keys |
| PaginationLinks.ToDictLookup | backend/modules/common/pagination/utils.py:14 | each key keeps its last non-blank value |
| PaginationLinks.NextLink | backend/modules/common/pagination/utils.py:5-19 | a link exists iff `all_records_count - records_per_page > offset`; the rest of the URL is kept |
| PaginationLinks.NextLinkQuery | backend/modules/common/pagination/utils.py:9-17 | the link's offset is `offset + records_per_page`, below the record count; other parameters are kept |
| PaginationLinks.PreviousLink | backend/modules/common/pagination/utils.py:22-31 | a link exists iff `offset != 0` and `offset <= records_per_page`, or `records_per_page < offset`; the first case removes the `offset=<n>` text and trailing `&` and `?`, the second rewrites it to `offset - records_per_page` |
| PaginationLinks.PreviousLinkCases | backend/modules/common/pagination/utils.py:25-31 | offset 0 gives no link; past the second page the link rewrites `offset=<n>` to the positive offset `records_per_page` back |
| PaginationLinks.PreviousLinkDropsOffset | backend/modules/common/pagination/utils.py:26-27 | on the second page, a URL ending in `?offset=<n>` goes back to the bare URL |
| PaginationLinks.PreviousLinkStepsBack | backend/modules/common/pagination/utils.py:28-29 | past the second page, a URL ending in `?offset=<n>` becomes the same URL ending in `?offset=<n - records_per_page>` |
| PaginationDto.Trunc | backend/apps/common/pagination/dtos.py:11 | `int` of a float rounds toward zero |
| PaginationDto.ToInt | backend/apps/common/pagination/dtos.py:11 | `int` takes integers, truncates floats, parses numeric text, and raises TypeError on `None` |
| PaginationDto.Converted | backend/apps/common/pagination/dtos.py:10-13 | only a ValueError is replaced, by the class's own message |
| PaginationDto.ValidatedCases | backend/apps/common/pagination/dtos.py:9-22 | succeeds iff both fields convert to integers >= 0 (zero accepted); the offset is checked first; a non-integer records_per_page reports "Offset must be an integer." |
| PaginationDto.DecimalTextIsInteger | backend/apps/common/pagination/dtos.py:10-18 | decimal text behaves as the integer it spells |
| PaginationDto.Pagination.constructor | backend/apps/common/pagination/dtos.py:4-7 | the generated `__init__` stores both fields as given |
| PaginationDto.Pagination.PostInit | backend/apps/common/pagination/dtos.py:9-22 | the outcome is `Validated`; on success both fields hold non-negative ints; each field that converted is replaced before the next check |
| TextOps.ParseInt | backend/apps/common/pagination/dtos.py:17-20 | `int` of text fails only with ValueError, which is the one exception the dataclass rewrites |
| TextOps.ParseDec | backend/apps/common/pagination/dtos.py:17-18 | the decimal text of any integer parses back to that integer |
| TextOps.ParseIntStripsAnySpace | backend/apps/common/pagination/dtos.py:17-18 | `int` strips the ASCII separators 0x1C to 0x1F and the Unicode spaces like ordinary whitespace |
| TextOps.StripEmptyIffBlank | backend/modules/common/entrypoints/web/forms.py:23 | `strip()` gives `""` iff the text is whitespace only |
| TextOps.SplitJoin | backend/modules/common/entrypoints/web/forms.py:14 | splitting a comma-join of comma-free parts gives the parts back |

## Left out

- Concurrency: the row locks, the REPEATABLE READ isolation and the threaded tests. Transactions are composed one after the other.
- SQL query construction (`_filter`, `_order`, `_paginate`, `_get_templates` in the SQLAlchemy repositories) and the query repositories' `get`/`list`. This SQL cannot be stated as Dafny.
- The web layer, WTForms fields other than `OrderingForm`, dependency-injection wiring (`bootstrap.py`), Celery and email notificators. The notification handler is an opaque handler id.
- The clock, time zones and UUID generation are parameters. Timestamps are stored as given, with no UTC/local conversion.
- `str(id)` is the parameter `idText`. The iteration order of Python sets is the parameter `iter`, and `list(...)` results are returned as sets.
- `VALUE_NAME_IN_DATABASE`: `consts.py` is not part of this model, so the key is `"value"`.
- The application's SQLAlchemy repository raises NoResultFound for an absent id. The model gives TemplateDoesNotExist, as its port documents.
- The subtract command's field is named `subtraction_value`, but the service reads `command.value`. The model has a single amount.
- IntRows.Created, IntRows.Create and TemplateServices.CreateTemplate: a duplicate id raises IntegrityError at `create`, not at the later flush or commit. So the log of the failed block is a rollback, a close and a rollback, while in the database the failed `commit()` inside `__exit__` propagates before `close` (backend/modules/template/adapters/unit_of_work.py:21-28).
- The three SQLAlchemy units of work are one class. A `guarded` flag distinguishes the RuntimeError guard from the application unit's AttributeError.
- `modules/template_module/services/template_services.py` and the `template_module` handler tables (broken imports) are not modelled, and neither is `tests/fakers.py` and the other factories.
- Query services: their only logic is default filters and ordering.
- Bus.Drain: bus steps are bounded by a fuel budget. Running it out gives the status OutOfFuel, which the source does not have.
- Bus.MessageBus.Handle: handlers are given as a function, not as arbitrary Python code.
- Python `int` on text: underscores, non-ASCII digits and the float values inf and nan are not modelled.
- TextOps.Lower: case is folded for ASCII letters only; `str.lower` on other letters is not modelled.
- AppServices.CreateTemplate: a stored id raises IntegrityError when the entity is saved, not at the flush inside `commit`. So the log shows a rollback and a close, while in the database the failed commit propagates out of `__exit__` before `close`.
- IntMemory.TestTemplatesRepository.Create and TextMemory.FakeTemplateRepository.Create drop every stored object equal to the entity, while `set.remove` drops the one it finds. The two differ only when an entity changed in place has become equal to another stored one.
- Handlers.ServiceCommandEffect takes each service's behaviour from its transaction function on one committed table. The service methods' own contracts (`TemplateServices.CreateTemplate` and the others) state that they commit that transaction and then publish its event. A `SetTemplateValue` carrying a non-integer value is given no behaviour.
- URL parsing, percent-encoding and `urlencode` are not modelled. A URL is split into its head, a list of parameters and a fragment.
- IntMemory.TestTemplatesRepository.constructor and TextMemory.FakeTemplateRepository.constructor take a set: deduplication of equal entities from a list is not modelled.
- ModuleServices.SetTemplateValueOnFakes requires the fake repository's ids to be unique, as when every entity was created with a fresh id.
- IntMemory.TestTemplatesRepository.Delete, IntMemory.TestTemplatesRepository.Update and the TextMemory counterparts state the exact new set only under unique ids. Without them, one element with the id is removed, plus every element equal to it.
- Messages.Event: the same-named event classes of `modules/template/domain/events.py` and `modules/template_module/domain/events.py` are one constructor each. A TemplateValueSet's class is told by its payload, an integer for `modules.template` and a string for `template_module`. TemplateCreated and TemplateDeleted carry the same fields in both modules and cannot be told apart.
- Handlers.SilentEventsAreNoOps: because of that merge, the lemma also covers the `template_module` TemplateCreated and TemplateDeleted. In Python this module's class-keyed table has no entry for them, so dispatching them raises NotImplementedError.
- Handlers.EventsRegistered: for the same reason, its first clause also holds for the `template_module` TemplateCreated and TemplateDeleted, which in Python have no entry.
- FakeBus.EmailsFor and FakeBus.FakeMessageBus.Handle: the fake imports its TemplateValueSet from `domain/events/template.py`, while the module's services import theirs from `domain.events`. The model takes the fake's class to be the one the services publish, the string-valued TemplateValueSet.
- Python object identity in sets is Dafny reference identity. Equality of entities is `Equals` on their attributes.

## Findings

| source | as written | input that shows it | evidently intended | confidence | as-written member | corrected member |
|---|---|---|---|---|---|---|
| backend/modules/template_module/services/commands/commands.py:89 | `set_template_value` writes the changed entity back with `templates.create`. In the SQLAlchemy repository that is insert-if-absent (repository.py:33-39), so for a stored id nothing is written and the new value and version are lost. | any stored id with a valid value: after commit the stored value and version are the old ones, yet TemplateValueSet is published | write back with `templates.update`, storing the new value at version + 1, as the end-to-end test backend/tests/end_to_end/template_module/test_entrypoints/test_web/test_api.py:417-428 expects when it reads the value back | not executed | ModuleServices.SetValueAsWrittenLosesUpdate | ModuleServices.SetValueEffect |

The in-memory fakes hide the loss: there, `get` returns the stored object itself and the
entity is changed in place (`ModuleServices.SetTemplateValueOnFakes`). The as-written
service is `ModuleServices.SetTemplateValueAsWritten`. The corrected one is
`ModuleServices.SetTemplateValue`, with `ModuleServices.SetValueAllRaisesVersion` and
`ModuleServices.TwoSets` about it.
