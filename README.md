# eZ Publish REST layer and notification service, modelled in Dafny

This project models five small pieces of the eZ Publish kernel's REST bundle and
repository layer, and proves properties of them.

- **Output visitor compiler pass** (`output_visitor_pass.dfy`). Every service tagged
  `ezpublish_rest.output.visitor` names its Accept-header regexps. It gives them either as a
  literal list or as the name of a container parameter that holds the list, and it may give an
  integer `priority`. The list is a list of groups, each a list of pattern strings, as in
  `array(array('(^.*/.*$)'))`. The model assumes that the groups are flattened one level, in
  order, into the visitor's patterns (see "## Left out"). The pass collects the visitors. It orders them by priority, highest first, and keeps
  declaration order among equal priorities. Then it appends one `addVisitor(pattern, reference)`
  call per flattened pattern to the dispatcher definition's list of method calls. The ordering
  is an insertion sort. It is proved sorted, a permutation and stable, and proved to be the only
  ordering with those three properties. The mutation of the definition is a
  class method, tied to that specification.
- **REST request listener** (`request_listener.dfy`). On every kernel request, master or
  sub-request, the listener sets the request attribute `is_rest_request` to whether the path
  starts with `/api/<segment>/v<major>[.<minor>]/`. Here `segment` is one or more of
  `A-Z a-z 0-9 - _`, and `major` and `minor` are runs of digits. The classifier works character by
  character. It is proved equivalent to that structural description. Every route of the
  listener's tests is classified as the tests expect.
- **Notification service** (`notification_service.dfy`). The persistence handler is a map from id
  to row, with the next free id. The current user is a field. The model covers:
  - loading the user's list, with `totalCount` and one page of items;
  - loading one notification, which is refused with NotFound unless the current user owns it;
  - marking as read, guarded first by a zero id, then by a foreign owner; the update is
    idempotent;
  - creating and deleting notifications;
  - the two counts.
- **Owner id criterion parser** (`owner_id.dfy`). The parser requires the key `OwnerIdCriterion`
  and splits the value at commas, as `explode(',', …)` does. Splitting and joining are proved
  to be inverses.
- **Simplified content create parser** (`simplified_content_create.dfy`). The parser checks the
  string elements `ContentType`, `ContentSection` and `Owner` in that order. Each element is
  handed to the resource resolver once it passes. The href builder `getRestHref` puts
  `/api/ezp/v2` in front of an href. When the href starts with `/`, the result is proved to be a
  path that the request listener flags as REST. Nothing is claimed for an href without the leading
  `/`.

`wrappers.dfy` holds the shared `Result` and `Option` types.

## Model

| member | source | states |
|---|---|---|
| OutputVisitorPass.PriorityOnlyFromPriorityKey | eZ/Bundle/EzPublishRestBundle/Tests/DependencyInjection/Compiler/OutputVisitorPassTest.php:76-85 | a tag without a `priority` key has priority 0, and no other key (such as the misspelled `prority`) changes the priority |
| OutputVisitorPass.EffectivePriority | eZ/Bundle/EzPublishRestBundle/Tests/DependencyInjection/Compiler/OutputVisitorPassTest.php:76-85 | the `priority` attribute when it holds an integer, and 0 when it is absent or not an integer; any non-zero priority comes from that key |
| OutputVisitorPass.GroupPatterns | eZ/Bundle/EzPublishRestBundle/Tests/DependencyInjection/Compiler/OutputVisitorPassTest.php:22-23 | a group yields its patterns exactly when every item is a string, and then item by item |
| OutputVisitorPass.Flatten | eZ/Bundle/EzPublishRestBundle/Tests/DependencyInjection/Compiler/OutputVisitorPassTest.php:28-29 | flattening succeeds iff every group is a list of strings |
| OutputVisitorPass.FlattenMembers | eZ/Bundle/EzPublishRestBundle/Tests/DependencyInjection/Compiler/OutputVisitorPassTest.php:22-29 | a pattern is in the flattened list iff it is an item of one of the groups |
| OutputVisitorPass.FlattenAppend | eZ/Bundle/EzPublishRestBundle/Tests/DependencyInjection/Compiler/OutputVisitorPassTest.php:22-29 | flattening two lists of groups written one after the other gives their patterns one after the other, and fails exactly when one of the two lists fails to flatten |
| OutputVisitorPass.FlattenSingletons | eZ/Bundle/EzPublishRestBundle/Tests/DependencyInjection/Compiler/OutputVisitorPassTest.php:57-75 | a list of one-pattern groups flattens back to those patterns, in order |
| OutputVisitorPass.Patterns | eZ/Bundle/EzPublishRestBundle/Tests/DependencyInjection/Compiler/OutputVisitorPassTest.php:28-29 | a regexps value is accepted iff it is a list of lists of strings with at least one pattern, and then yields the flattened patterns; an empty result raises the empty-list error, any other shape the invalid-regexps error |
| OutputVisitorPass.ResolveRegexps | eZ/Bundle/EzPublishRestBundle/Tests/DependencyInjection/Compiler/OutputVisitorPassTest.php:25-40 | a missing `regexps` key raises MissingRegexps; a literal list resolves to its patterns; a string resolves to the patterns of the parameter it names, or raises UnknownParameter when there is none; any other value raises InvalidRegexps; success yields a non-empty list; every error names the service |
| OutputVisitorPass.FlatListIsInvalid | eZ/Bundle/EzPublishRestBundle/Tests/DependencyInjection/Compiler/OutputVisitorPassTest.php:22-29 | a list holding a pattern string where a group belongs is not well shaped and is refused as invalid |
| OutputVisitorPass.LiteralResolves | eZ/Bundle/EzPublishRestBundle/Tests/DependencyInjection/Compiler/OutputVisitorPassTest.php:28-29 | a well-shaped literal list resolves to its flattened patterns, which are exactly the pattern strings of its groups |
| OutputVisitorPass.ParameterEqualsLiteral | eZ/Bundle/EzPublishRestBundle/Tests/DependencyInjection/Compiler/OutputVisitorPassTest.php:26-40 | naming a parameter that holds a list resolves to exactly what writing that list literally does |
| OutputVisitorPass.Collect | eZ/Bundle/EzPublishRestBundle/Tests/DependencyInjection/Compiler/OutputVisitorPassTest.php:32-38 | collection succeeds iff every registration resolves; it then yields one visitor per registration, in declaration order, with that registration's priority, regexps and reference; otherwise the first failing registration decides the error |
| OutputVisitorPass.Insert | eZ/Bundle/EzPublishRestBundle/Tests/DependencyInjection/Compiler/OutputVisitorPassTest.php:101-104 | inserting adds exactly one visitor |
| OutputVisitorPass.SortByPriority | eZ/Bundle/EzPublishRestBundle/Tests/DependencyInjection/Compiler/OutputVisitorPassTest.php:101-104 | the ordering keeps the number of visitors; its order, permutation and stability are the lemmas below |
| OutputVisitorPass.InsertIntoSorted | eZ/Bundle/EzPublishRestBundle/Tests/DependencyInjection/Compiler/OutputVisitorPassTest.php:101-104 | inserting into a priority-sorted list keeps it sorted and adds exactly the one visitor |
| OutputVisitorPass.SortByPriorityIsSortedPermutation | eZ/Bundle/EzPublishRestBundle/Tests/DependencyInjection/Compiler/OutputVisitorPassTest.php:101-104 | the ordering is by descending priority and is a permutation of the visitors |
| OutputVisitorPass.SortByPriorityIsStable | eZ/Bundle/EzPublishRestBundle/Tests/DependencyInjection/Compiler/OutputVisitorPassTest.php:87-104 | for every priority, the visitors of that priority keep their declaration order |
| OutputVisitorPass.SortedWithSameClassesAreEqual | eZ/Bundle/EzPublishRestBundle/Tests/DependencyInjection/Compiler/OutputVisitorPassTest.php:101-104 | two priority-sorted lists with the same visitors in each priority class, in the same order, are equal |
| OutputVisitorPass.StableSortIsUnique | eZ/Bundle/EzPublishRestBundle/Tests/DependencyInjection/Compiler/OutputVisitorPassTest.php:101-104 | any sorted ordering that keeps every priority class in order is the pass's ordering |
| OutputVisitorPass.WithPriorityMembers | eZ/Bundle/EzPublishRestBundle/Tests/DependencyInjection/Compiler/OutputVisitorPassTest.php:90-92 | a priority class holds exactly the visitors of that priority |
| OutputVisitorPass.InsertKeepsPriorityClasses | eZ/Bundle/EzPublishRestBundle/Tests/DependencyInjection/Compiler/OutputVisitorPassTest.php:87-104 | inserting a visitor into a sorted list puts it after the visitors of its priority already there, so every priority class reads as if it were prepended |
| OutputVisitorPass.VisitorCalls | eZ/Bundle/EzPublishRestBundle/Tests/DependencyInjection/Compiler/OutputVisitorPassTest.php:45-54 | one `addVisitor` call per pattern of the visitor, in order, each carrying that pattern and the visitor's reference |
| OutputVisitorPass.Calls | eZ/Bundle/EzPublishRestBundle/Tests/DependencyInjection/Compiler/OutputVisitorPassTest.php:45-49 | every call emitted for the visitors is named `addVisitor` |
| OutputVisitorPass.CallsComeFromVisitors | eZ/Bundle/EzPublishRestBundle/Tests/DependencyInjection/Compiler/OutputVisitorPassTest.php:48-54 | every emitted call is named `addVisitor` and carries a regexp of one visitor together with that visitor's reference |
| OutputVisitorPass.CallsOfSingleRegexps | eZ/Bundle/EzPublishRestBundle/Tests/DependencyInjection/Compiler/OutputVisitorPassTest.php:87-104 | with one regexp per visitor there is exactly one call per visitor, in the visitors' order |
| OutputVisitorPass.Compile | eZ/Bundle/EzPublishRestBundle/Tests/DependencyInjection/Compiler/OutputVisitorPassTest.php:42-54 | the pass succeeds iff every registration resolves, and then emits only `addVisitor` calls; otherwise its error is that of the first registration that fails to resolve |
| OutputVisitorPass.CompiledCallsReferToRegistrations | eZ/Bundle/EzPublishRestBundle/Tests/DependencyInjection/Compiler/OutputVisitorPassTest.php:48-54 | every call of a successful pass is an `addVisitor` call that refers to the id of a registered service and carries one of that service's resolved regexps |
| OutputVisitorPass.OneCallPerRegistration | eZ/Bundle/EzPublishRestBundle/Tests/DependencyInjection/Compiler/OutputVisitorPassTest.php:87-104 | with one pattern per registration the pass succeeds with one call per registration, in the order of the sorted visitors, which are a permutation of the collected visitors |
| OutputVisitorPass.CallAt | eZ/Bundle/EzPublishRestBundle/Tests/DependencyInjection/Compiler/OutputVisitorPassTest.php:46-54 | the `p`-th pattern of the `i`-th visitor yields the `addVisitor` call at position `CallIndex(i, p)`, with that pattern and that visitor's reference |
| OutputVisitorPass.CallIndexOrder | eZ/Bundle/EzPublishRestBundle/Tests/DependencyInjection/Compiler/OutputVisitorPassTest.php:46-54 | every call of an earlier visitor comes before every call of a later one |
| OutputVisitorPass.CompiledCallsFollowPriority | eZ/Bundle/EzPublishRestBundle/Tests/DependencyInjection/Compiler/OutputVisitorPassTest.php:87-104 | for any number of patterns per visitor, each call of a visitor of strictly higher priority comes before each call of a visitor of lower priority |
| OutputVisitorPass.Definition.constructor | eZ/Bundle/EzPublishRestBundle/Tests/DependencyInjection/Compiler/OutputVisitorPassTest.php:34 | a new definition records no method calls |
| OutputVisitorPass.Definition.AddMethodCall | eZ/Bundle/EzPublishRestBundle/Tests/DependencyInjection/Compiler/OutputVisitorPassTest.php:45 | appends exactly one call to the definition's method-call list |
| OutputVisitorPass.CollectVisitors | eZ/Bundle/EzPublishRestBundle/Tests/DependencyInjection/Compiler/OutputVisitorPassTest.php:42-43 | the loop over the tagged services computes the collection specified above |
| OutputVisitorPass.AddVisitorCalls | eZ/Bundle/EzPublishRestBundle/Tests/DependencyInjection/Compiler/OutputVisitorPassTest.php:45-49 | the nested loop appends the calls of all visitors, in order, after the calls already recorded |
| OutputVisitorPass.Process | eZ/Bundle/EzPublishRestBundle/Tests/DependencyInjection/Compiler/OutputVisitorPassTest.php:42-45 | on success the dispatcher's calls become the old calls followed by the calls of the priority-sorted visitors; on a configuration error that error is returned and the definition is unchanged |
| OutputVisitorPass.ProcessScenarioCollected | eZ/Bundle/EzPublishRestBundle/Tests/DependencyInjection/Compiler/OutputVisitorPassTest.php:25-40 | the parameter-named tag and the literal tag both resolve, to `(^application/json$)` and `(^.*/.*$)`, and are collected in declaration order with priority 0 |
| OutputVisitorPass.ProcessScenario | eZ/Bundle/EzPublishRestBundle/Tests/DependencyInjection/Compiler/OutputVisitorPassTest.php:20-55 | the parameter-named list of `test_string` and the literal list of `test_array` give two `addVisitor` calls, `test_string` first |
| OutputVisitorPass.PriorityOrderScenario | eZ/Bundle/EzPublishRestBundle/Tests/DependencyInjection/Compiler/OutputVisitorPassTest.php:64-104 | visitors declared with priorities 0, -10, 0, 10 are ordered 10, first 0, second 0, -10 |
| OutputVisitorPass.SortStep | eZ/Bundle/EzPublishRestBundle/Tests/DependencyInjection/Compiler/OutputVisitorPassTest.php:101-104 | a visitor inserted into a list lands after every visitor of strictly higher priority and before the rest |
| OutputVisitorPass.ResolvesOneRegexp | eZ/Bundle/EzPublishRestBundle/Tests/DependencyInjection/Compiler/OutputVisitorPassTest.php:57-75 | a tag whose `regexps` is one group of one pattern resolves to that pattern |
| OutputVisitorPass.CollectFour | eZ/Bundle/EzPublishRestBundle/Tests/DependencyInjection/Compiler/OutputVisitorPassTest.php:77-99 | four registrations that all resolve collect to four visitors, in declaration order, each built from its own registration and resolved patterns |
| OutputVisitorPass.PriorityScenarioCollected | eZ/Bundle/EzPublishRestBundle/Tests/DependencyInjection/Compiler/OutputVisitorPassTest.php:57-99 | the four tags of the priority test are collected in declaration order with priorities 0, -10, 0 and 10, one pattern each |
| OutputVisitorPass.PriorityScenario | eZ/Bundle/EzPublishRestBundle/Tests/DependencyInjection/Compiler/OutputVisitorPassTest.php:57-105 | the four registrations produce calls in the order high, defined_normal, normal, low, each with its own regexp |
| RequestListener.SpanEnd | eZ/Bundle/EzPublishRestBundle/Tests/EventListener/RequestListenerTest.php:58-86 | the end of the longest run of segment characters or digits from a position: every character before it is in the class, the one at it is not |
| RequestListener.IsRestRoute | eZ/Bundle/EzPublishRestBundle/Tests/EventListener/RequestListenerTest.php:55-123 | a path the classifier accepts is longer than `/api/` and starts with it |
| RequestListener.RestRouteHasPattern | eZ/Bundle/EzPublishRestBundle/Tests/EventListener/RequestListenerTest.php:55-123 | every path the classifier accepts is `/api/` + a non-empty segment + `/v` + digits + an optional `.digits` + `/` + anything |
| RequestListener.PatternIsRestRoute | eZ/Bundle/EzPublishRestBundle/Tests/EventListener/RequestListenerTest.php:55-88 | every path of that shape is accepted |
| RequestListener.RestRouteIffPattern | eZ/Bundle/EzPublishRestBundle/Tests/EventListener/RequestListenerTest.php:55-123 | the classifier accepts a path if and only if it has the REST route shape |
| RequestListener.Request.constructor | eZ/Bundle/EzPublishRestBundle/Tests/EventListener/RequestListenerTest.php:152 | a request created for a path carries that path and no attributes |
| RequestListener.OnKernelRequest | eZ/Bundle/EzPublishRestBundle/Tests/EventListener/RequestListenerTest.php:148-158 | for a master or a sub-request alike, sets `is_rest_request` to the boolean classification of the path and leaves every other attribute as it was |
| RequestListener.PerformFakeRequest | eZ/Bundle/EzPublishRestBundle/Tests/EventListener/RequestListenerTest.php:148-159 | the flag read back after the listener ran is the boolean classification of the URI |
| RequestListener.RunInClass | eZ/Bundle/EzPublishRestBundle/Tests/EventListener/RequestListenerTest.php:48-88 | a stretch of a path equal to a literal of class characters has only class characters |
| RequestListener.RestRouteOf | eZ/Bundle/EzPublishRestBundle/Tests/EventListener/RequestListenerTest.php:48-88 | a path assembled from a segment of segment characters, digits, an optional `.digits` and a rest is accepted |
| RequestListener.BadSegment | eZ/Bundle/EzPublishRestBundle/Tests/EventListener/RequestListenerTest.php:90-123 | a path under `/api/` whose segment is empty, or is not followed by `/v`, is refused |
| RequestListener.BadMajorVersion | eZ/Bundle/EzPublishRestBundle/Tests/EventListener/RequestListenerTest.php:90-123 | a path whose version after `/v` has no digit, or whose digits are followed by neither `/` nor `.`, is refused |
| RequestListener.RestRequestVariations | eZ/Bundle/EzPublishRestBundle/Tests/EventListener/RequestListenerTest.php:48-88 | `/api/ezp/v2/rest-route` and the eight REST variations (segments with `-`, `_` and digits, versions `v1`, `v2`, `v2.7`, `v122.73`) are REST routes |
| RequestListener.NonRestOutsideApi | eZ/Bundle/EzPublishRestBundle/Tests/EventListener/RequestListenerTest.php:90-123 | `/non-rest-route` is refused |
| RequestListener.NonRestShortPrefix | eZ/Bundle/EzPublishRestBundle/Tests/EventListener/RequestListenerTest.php:90-123 | `/ap/ezp/v2/false` is refused |
| RequestListener.NonRestSpacedSegment | eZ/Bundle/EzPublishRestBundle/Tests/EventListener/RequestListenerTest.php:90-123 | `/api/bundle name/v2/false` is refused |
| RequestListener.NonRestSlashedSegment | eZ/Bundle/EzPublishRestBundle/Tests/EventListener/RequestListenerTest.php:90-123 | `/api/My/Bundle/v2/false` is refused |
| RequestListener.NonRestEmptySegment | eZ/Bundle/EzPublishRestBundle/Tests/EventListener/RequestListenerTest.php:90-123 | `/api//v2/false` is refused |
| RequestListener.NonRestEmptyVersion | eZ/Bundle/EzPublishRestBundle/Tests/EventListener/RequestListenerTest.php:90-123 | `/api/my-bundle/v/false` is refused |
| RequestListener.NonRestDashedVersion | eZ/Bundle/EzPublishRestBundle/Tests/EventListener/RequestListenerTest.php:90-123 | `/api/my-bundle/v2-2/false` is refused |
| RequestListener.NonRestSpacedVersion | eZ/Bundle/EzPublishRestBundle/Tests/EventListener/RequestListenerTest.php:90-123 | `/api/my-bundle/v2 7/false` is refused |
| RequestListener.NonRestSplitVersion | eZ/Bundle/EzPublishRestBundle/Tests/EventListener/RequestListenerTest.php:90-123 | `/api/my-bundle/v/7/false` is refused |
| RequestListener.NonRestRequestVariations | eZ/Bundle/EzPublishRestBundle/Tests/EventListener/RequestListenerTest.php:90-123 | `/non-rest-route`, the `/ap/` prefix, a segment with a space or a slash, an empty segment and the versions `v/`, `v2-2`, `v2 7`, `v/7` are not REST routes |
| Notifications.BuildDomainObject | eZ/Publish/Core/Repository/NotificationService.php:150-160 | the domain object has the row's id, owner, pending flag, type and data, and the row's timestamp as its creation time |
| Notifications.BuildDomainObjectIsInjective | eZ/Publish/Core/Repository/NotificationService.php:150-160 | distinct rows build distinct domain objects: building loses nothing |
| Notifications.CreatedNotificationCopiesStruct | eZ/Publish/Core/Repository/NotificationService.php:167-179 | a created notification has the struct's owner, type, pending flag and data, the assigned id and the clock's time |
| Notifications.PendingCountAtMostCount | eZ/Publish/Core/Repository/NotificationService.php:110-125 | a user's pending count never exceeds their notification count |
| Notifications.OwnedDescendingRows | eZ/Publish/Core/Repository/NotificationService.php:54 | the user's list holds only stored rows of that user, with strictly decreasing ids |
| Notifications.OwnedDescendingCount | eZ/Publish/Core/Repository/NotificationService.php:50-54 | the list holds one row per owned id in range |
| Notifications.OwnedDescendingComplete | eZ/Publish/Core/Repository/NotificationService.php:54 | every stored row of the user is in the list |
| Notifications.UserNotificationsMatchCount | eZ/Publish/Core/Repository/NotificationService.php:50-54 | the user's list is exactly as long as the user's count |
| Notifications.Page | eZ/Publish/Core/Repository/NotificationService.php:54 | a page holds at most `limit` rows: exactly `limit` when the list reaches that far, the rest of the list from `offset` when it does not, and nothing when `offset` is past the end; its k-th row is row `offset + k` of the list |
| Notifications.LoadedItems | eZ/Publish/Core/Repository/NotificationService.php:45-58 | at most `limit` items; none when the user's count is zero; otherwise the domain objects of the page of the user's list, item by item |
| Notifications.PageOfUserNotifications | eZ/Publish/Core/Repository/NotificationService.php:54 | a page of the user's list holds at most `limit` stored rows of the user, newest first |
| Notifications.LoadedItemsAreOwnPage | eZ/Publish/Core/Repository/NotificationService.php:45-58 | the loaded items are at most `limit` domain objects, each built from the stored row of the current user under its id, newest first |
| Notifications.NothingToLoadWithoutCount | eZ/Publish/Core/Repository/NotificationService.php:51-55 | when the count is zero the page would be empty, so skipping the load loses nothing |
| Notifications.FirstPageIsEverything | eZ/Publish/Core/Repository/NotificationService.php:45-58 | when the count fits the limit, the first page has exactly as many items as the user has notifications, and the domain object of every stored row of the user is among them |
| Notifications.GetNotification | eZ/Publish/Core/Repository/NotificationService.php:65-76 | a notification is returned iff it is stored, its owner is non-zero and equals the current user; it is then the domain object of the row; otherwise NotFound('Notification', id) |
| Notifications.GetNotificationIsListed | eZ/Publish/Core/Repository/NotificationService.php:45-76 | a notification returned by id is also in the user's list |
| Notifications.ZeroUserGetsNothing | eZ/Publish/Core/Repository/NotificationService.php:71-73 | a current user id of 0 is refused every notification |
| Notifications.MarkAsRead | eZ/Publish/Core/Repository/NotificationService.php:84-98 | id 0 raises NotFound before ownership is looked at; otherwise a passed owner other than the current user raises Unauthorized; the call succeeds iff neither applies; an already read notification leaves the store as it was |
| Notifications.MarkAsReadChangesOnlyThatFlag | eZ/Publish/Core/Repository/NotificationService.php:100-104 | a successful mark keeps the ids, leaves every other row alone and changes only the pending flag of that row, to false |
| Notifications.MarkAsReadIsIdempotent | eZ/Publish/Core/Repository/NotificationService.php:96-104 | marking again with the same object, or with the re-read object, changes nothing more |
| Notifications.MarkAsReadCounts | eZ/Publish/Core/Repository/NotificationService.php:100-125 | marking keeps every user's count and never increases a pending count |
| Notifications.MarkAsReadTrustsPassedOwner | eZ/Publish/Core/Repository/NotificationService.php:84-104 | an object naming the current user as owner, under the id of another user's pending row, is accepted and clears that row's flag, which keeps its foreign owner |
| Notifications.Deleted | eZ/Publish/Core/Repository/NotificationService.php:140-143 | deletion removes exactly the passed object's id, with no ownership check, and keeps every other row |
| Notifications.DeletedCounts | eZ/Publish/Core/Repository/NotificationService.php:140-143 | the owner's count drops by one when the deleted id was stored, and every other user's count is kept |
| Notifications.CreatedCounts | eZ/Publish/Core/Repository/NotificationService.php:167-179 | the new row takes a free id, the store stays well formed, and the owner's count grows by one |
| Notifications.NotificationService.constructor | eZ/Publish/Core/Repository/NotificationService.php:36-40 | a service over an empty store for the given current user |
| Notifications.NotificationService.LoadNotifications | eZ/Publish/Core/Repository/NotificationService.php:45-58 | a fresh list whose `totalCount` is the user's count and whose items are the loaded page, or nothing when the count is zero |
| Notifications.NotificationService.LoadDefaultNotifications | eZ/Publish/Core/Repository/NotificationService.php:45 | loading without arguments is loading with offset 0 and limit 25 |
| Notifications.NotificationService.GetNotificationById | eZ/Publish/Core/Repository/NotificationService.php:65-76 | returns what loading by id specifies, and changes nothing |
| Notifications.NotificationService.MarkNotificationAsRead | eZ/Publish/Core/Repository/NotificationService.php:84-105 | the store becomes the marked store; on an error the error is returned and the store is unchanged; the store stays well formed |
| Notifications.NotificationService.GetPendingNotificationCount | eZ/Publish/Core/Repository/NotificationService.php:110-115 | the current user's pending count |
| Notifications.NotificationService.GetNotificationCount | eZ/Publish/Core/Repository/NotificationService.php:120-125 | the current user's count |
| Notifications.NotificationService.DeleteNotification | eZ/Publish/Core/Repository/NotificationService.php:140-143 | removes the row under the passed object's id and keeps the store well formed |
| Notifications.NotificationService.CreateNotification | eZ/Publish/Core/Repository/NotificationService.php:167-179 | stores the struct's row, stamped with the clock's time, at the next free id, advances that id, and returns the row's domain object |
| OwnerIdParser.Explode | eZ/Publish/Core/REST/Server/Input/Parser/Criterion/OwnerId.php:39 | splitting never yields an empty list; the empty string gives one empty piece |
| OwnerIdParser.JoinExplode | eZ/Publish/Core/REST/Server/Input/Parser/Criterion/OwnerId.php:39 | joining the pieces with `,` gives back the value |
| OwnerIdParser.ExplodeHasNoComma | eZ/Publish/Core/REST/Server/Input/Parser/Criterion/OwnerId.php:39 | no piece contains a comma |
| OwnerIdParser.ExplodeCount | eZ/Publish/Core/REST/Server/Input/Parser/Criterion/OwnerId.php:39 | there is one more piece than there are commas |
| OwnerIdParser.ExplodeCommaFreePrefix | eZ/Publish/Core/REST/Server/Input/Parser/Criterion/OwnerId.php:39 | a comma-free prefix is glued to the first piece of what follows |
| OwnerIdParser.ExplodeJoin | eZ/Publish/Core/REST/Server/Input/Parser/Criterion/OwnerId.php:39 | splitting a join of a non-empty list of comma-free ids gives back the list |
| OwnerIdParser.Parse | eZ/Publish/Core/REST/Server/Input/Parser/Criterion/OwnerId.php:33-40 | parsing fails iff the `OwnerIdCriterion` key is missing, with the message `Invalid <OwnerIdCriterion> format`; a parsed criterion lists at least one id |
| OwnerIdParser.ParseResult | eZ/Publish/Core/REST/Server/Input/Parser/Criterion/OwnerId.php:39 | the ids of a parsed criterion are comma-free, one more than the commas, and join back to the value |
| OwnerIdParser.ParseJoined | eZ/Publish/Core/REST/Server/Input/Parser/Criterion/OwnerId.php:39 | a value written as comma-free ids joined with `,` parses to exactly those ids |
| OwnerIdParser.ParseIgnoresOtherKeys | eZ/Publish/Core/REST/Server/Input/Parser/Criterion/OwnerId.php:35-39 | keys other than `OwnerIdCriterion` do not affect the result |
| SimplifiedContentCreate.MessageNamesElement | eZ/Publish/Core/REST/Server/Input/Parser/SimplifiedContentCreate.php:97-111 | the error message determines which element failed |
| SimplifiedContentCreate.CheckFromOutcome | eZ/Publish/Core/REST/Server/Input/Parser/SimplifiedContentCreate.php:97-113 | checking from any element on, with the earlier elements valid, either validates all of them or fails at the first invalid element after resolving the ones before it |
| SimplifiedContentCreate.CheckFrom | eZ/Publish/Core/REST/Server/Input/Parser/SimplifiedContentCreate.php:97-113 | checking from an element on keeps the hrefs already resolved as a prefix and resolves at most one more per remaining element, all of them when it validates |
| SimplifiedContentCreate.Parse | eZ/Publish/Core/REST/Server/Input/Parser/SimplifiedContentCreate.php:95-113 | parsing validates iff all three elements are strings, and then resolves them in the order ContentType, ContentSection, Owner; otherwise the first invalid element decides the error, after the elements before it were resolved |
| SimplifiedContentCreate.FirstInvalidIsUnique | eZ/Publish/Core/REST/Server/Input/Parser/SimplifiedContentCreate.php:97-111 | there is only one first invalid element |
| SimplifiedContentCreate.ContentTypeCheckedFirst | eZ/Publish/Core/REST/Server/Input/Parser/SimplifiedContentCreate.php:97-99 | a missing or non-string `ContentType` fails with its own message before anything is resolved |
| SimplifiedContentCreate.ContentSectionCheckedSecond | eZ/Publish/Core/REST/Server/Input/Parser/SimplifiedContentCreate.php:101-105 | a missing or non-string `ContentSection` fails with its own message, after `ContentType` passed and was resolved |
| SimplifiedContentCreate.OwnerCheckedThird | eZ/Publish/Core/REST/Server/Input/Parser/SimplifiedContentCreate.php:107-111 | a missing or non-string `Owner` fails with its own message, after the other two were resolved |
| SimplifiedContentCreate.ParseIgnoresOtherElements | eZ/Publish/Core/REST/Server/Input/Parser/SimplifiedContentCreate.php:95-113 | elements other than the three required ones do not affect the outcome |
| SimplifiedContentCreate.DecimalString | eZ/Publish/Core/REST/Server/Input/Parser/SimplifiedContentCreate.php:149 | `%d` of a natural number is a non-empty string of decimal digits, without a leading zero, whose value is that number |
| SimplifiedContentCreate.GetRestHref | eZ/Publish/Core/REST/Server/Input/Parser/SimplifiedContentCreate.php:147-150 | `getRestHref(h)` is `/api/ezp/v2` followed by `h`: it ends with `h` and is 11 characters longer |
| SimplifiedContentCreate.RestHrefIsRestRoute | eZ/Publish/Core/REST/Server/Input/Parser/SimplifiedContentCreate.php:147-150 | an href that starts with `/` becomes a path the request listener flags as a REST request |

## Left out

- The source of the compiler pass `OutputVisitorPass` is not part of this model. What its tests
  pin down is modelled: the regexps are a literal list or the name of a parameter holding one, the
  priority is the integer under `priority` and 0 when the key is absent, the order is by descending
  priority, equal priorities keep declaration order (`test_defined_normal` before `test_normal`,
  both at priority 0), and the calls are `addVisitor` calls carrying the service's reference. The
  tests do not read the pattern argument of a call. The rest is assumed:
  - the list is a list of groups, each a list of pattern strings; the groups are flattened one
    level, and each `addVisitor` call carries one pattern string;
  - so a flat list of strings is a configuration error (`FlatListIsInvalid`);
  - a tag without `regexps` raises a configuration error;
  - a string naming no container parameter raises a configuration error;
  - a value that is neither a string nor a list, or a list with a group that is not a list of
    strings, raises a configuration error;
  - a list whose groups hold no pattern at all raises a configuration error;
  - a non-integer `priority` counts as 0.
  The exception classes and messages are not modelled.
- The source of `RequestListener` is not part of this model, so neither is its regular expression.
  Its tests show individual routes, each modelled by a lemma. The route shape they come from is
  assumed:
  - the prefix `/api/`;
  - a non-empty segment of `A-Z a-z 0-9 - _`, the whole class;
  - `/v`, one or more digits of any length, and an optional `.digits`;
  - `/`.
  Anything may follow.
- The Accept-header visitor dispatcher is only mocked in the tests, so its matching is not
  modelled. Regexp strings are opaque values.
- RequestListener.PerformFakeRequest: the URI is used directly as the request's path. How
  `Request::create` splits a URI into path, query string and fragment is not modelled, so the model
  covers the tests' URIs, which have no query string or fragment.
- These are left out: the Symfony container, the `Reference` class, kernel event subscription and
  the PHPUnit mocks.
- The clock is a parameter (`now`) of `CreateNotification`. The current user from the permission
  resolver is the field `currentUserId`.
- The persistence handler's SQL is not part of this model. The model assumes three things:
  - the user's list is ordered by descending id, i.e. newest first;
  - loading a missing id raises NotFound('Notification', id);
  - updating a missing id changes nothing.
- Notifications.NotificationService.LoadNotifications: the PHP default arguments `offset = 0` and
  `limit = 25` are modelled by the separate method `LoadDefaultNotifications`, since Dafny methods
  have no default arguments. `offset` and `limit` are natural numbers. What the handler
  does with negative values is not modelled.
- Notifications.MarkAsRead: authorisation is judged on the passed object's owner, as in the
  source, not on the stored row's owner. The model keeps that behaviour, and
  `MarkAsReadTrustsPassedOwner` states its consequence.
- Notifications.BuildDomainObject: `DateTime` is only its timestamp. Time-zone handling and
  formatting are not modelled.
- OwnerIdParser.Parse: input values are strings. What `explode` does with a non-string value
  (an array, null) is not modelled.
- SimplifiedContentCreate.Parse: the model stops after the three elements are validated.
  - The resource resolver and `ContentService` are foreign calls. The resolver is represented only
    by the hrefs handed to it, in order. The model assumes that `resolve` and
    `newContentCreateStruct` never throw, so no error path of theirs is modelled.
  - After resolving, the source calls `newContentCreateStruct` and then ends the process with
    `die('---')`. The rest of its body is commented out, so nothing after the three checks is
    modelled.
- `ContentTypeService`, `SearchService` (site-access-aware services) and the Author field type are
  left out. They are delegations to other services and to value classes that are not part of this
  model.
