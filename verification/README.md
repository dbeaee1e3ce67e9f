# Order service: a verified model

Three small services take part in building and selling spacecraft: the order service keeps orders in a map and
offers create, pay, cancel and get over HTTP; the inventory server answers catalogue queries; the payment server issues
transactions. Generated code carries requests and replies between HTTP, JSON and the handler. This project models
these parts and proves what every run, every interleaving, every JSON object and every path keeps.
`dafny verify dfyconfig.toml` checks all of it.

## The parts

**The protocol** (`Handler`, `Protocol`, `Service`). Pay and cancel read a record under the read lock, check it (and pay
calls the payment server) without a lock, then store the whole record under the write lock. `Protocol` makes every
lock-bracketed block and every remote call one atomic step; any number of calls is in flight, each holding its own
snapshot. `Service` is the handler as an object over the shared store; its blocks are proved against the same functions
that the protocol interleaves.

- `Invariant`: what every interleaving keeps, races included. Every record is filed under its own UUID; its status is one
  of the three and never returns to pending; paid, transaction set and method set coincide; the parts, the price and the
  time never change; the price is the sum over the named slots; each snapshot in flight is a pending copy of its record.
- `Steps`: what the steps change that store no order.
- `Freeze`: a paid or cancelled record changes at most once for each snapshot still in flight, so with none in flight
  it is final.
- `Refinement`: a run shows its clients what an atomic machine shows them on the operations in the order in which they
  take effect, if and only if no write to an order falls between another call's read of it and that call's write.
- `Linearisability`: the same condition decides whether any whole operations at all, in any order, with any outcomes,
  explain what clients see; the operations of `Refinement` keep the order of calls that do not overlap in time, with one
  operation for each reply.
- `Conservation`: transactions issued against successful replies, calls between payment and write, and lost answers; and
  exactly when an order ends with one transaction if paid and none otherwise.
- `Finality`: order by order, exactly when it is paid twice, when a paid order is cancelled, when a cancelled one is
  paid, and when a final record changes.
- `Creation`: create composed with the catalogue, and which of its branches can be taken.
- `Answers`: what pay, cancel and get answer, decided by what is stored, and for get by what was written last.
- `Lifecycle`: every order in a reachable store goes back to one accepted request, and is reported as it was asked for.

**PAID and CANCELLED are not final by themselves.** The code overwrites a terminal record from a stale snapshot. `Race`
gives a run for every acceptable request in which the order is paid, then overwritten as cancelled while both clients
are told that they succeeded, a run in which a cancelled order is charged and paid, and a run in which one order is paid
for twice; `Finality` says for all runs and each order exactly when this happens.

**The whole way** (`EndToEnd`). A request printed by the generated client, routed, read and validated by the generated
server, answered by the handler and read back: the client sees what the handler answers, in every reachable state for a call that
nothing interleaves with, and in every run for a call among others.

**The catalogue** (`Inventory`), **the payment server** (`Payment`), **the JSON codec** (`RequiredFields`, `JsonObject`,
`OrderJson`, `RequestJson`), **the router and the client's paths** (`Router`, `ClientPath`) and **replies on the wire**
(`Wire`). The codec is the generated template over a schema: an object is a sequence of members whose names may repeat.

## What is assumed

- Drawn UUIDs are new: an event that draws a UUID is possible only if none of the earlier draws gave it.
- The UUID library parses what it formats, and the text is not empty and holds unreserved characters only. The theorems
  hold for any such text; `Uuids.CanonicalTextIsLawful` proves that the form of section 4 of RFC 9562 is one.
- An instant is read back as a normal form that prints the same. Escaping and unescaping a path segment leave the
  unreserved characters of section 2.3 of RFC 3986 alone.
- A remote call that fails may or may not have been acted on by the server; both are events, and a timeout is one of them.
  A payment server that was given up may still act at any later time. Those transactions count as lost answers.
- Unescaping changes a text, if it succeeds, exactly when there is a percent sign in it. What normalises a raw path is
  arbitrary.
- Between the generated client and server a request arrives without a raw path, or with one that normalises to the path
  that was sent or not at all.
- Every catalogue entry carries the text of the UUID under which it is filed. The catalogue is otherwise arbitrary and
  does not change during a run.
- Sorting is known by its contract only, and the map may be walked in any order. Characters are compared by code point,
  which is the byte order of valid UTF-8.

## Where the code and its descriptions differ

- The handler's comment says that a payment requires the pending status. It is checked on the snapshot only, so an order
  can be paid twice or cancelled after it was paid. The model follows the code; `Finality` says exactly when this happens to
  an order, `Linearisability` exactly when clients can notice anything, and `Freeze` bounds how often.
- Pay's answer to an unknown status is a conflict whose body claims 404. `Wire.ReachableRepliesAreFaithful` shows that it
  is never sent.
- An inventory failure of any kind, a missing part included, is answered as 404 "inventory not available".
- `FindPath` unescapes its argument whenever there is a raw path, also when that could not be normalised and the plain path
  was routed; then it describes another argument than the one the handler gets. `Router.TwinsAgreeOnTextExactlyWhen`
  gives the exact condition.
- The reported price is the sum of the part prices only if that sum fits an int64: `Invariant.ReportedPriceWrapsOrIsExact`, with a run that
  wraps in `Race.PriceCanWrap`.
- A matched path with another verb is answered 405 with `Allow` only if the verb is not OPTIONS; OPTIONS gets 204.

## Model

| member | source | states |
|---|---|---|
| Uuids.CanonicalTextIsLawful | inventory/pkg/service/service.go:150 | the canonical hexadecimal text of every UUID is parsed back to it, is not empty and holds unreserved characters only |
| Inventory.InventoryServer.ListParts | inventory/pkg/service/service.go:139-214 | with uuids, the lookup of those alone, the type ignored; without, a name-sorted list of exactly the parts of the type, each once per key |
| Inventory.InventoryServer.FindParts | inventory/pkg/service/service.go:144-174 | the loop computes the left-to-right lookup that stops at the first failure |
| Inventory.InventoryServer.AllParts | inventory/pkg/service/service.go:176-179 | in whatever order the map is walked, each part is collected once per key it is filed under |
| Inventory.FilterByType | inventory/pkg/service/service.go:182-192 | the filter loop keeps the parts of the wanted type, in order |
| Inventory.OfTypeInOrder | inventory/pkg/service/service.go:182-192 | filtering works part by part, so it keeps the order |
| Inventory.BeforeIsLexicographic | inventory/pkg/service/service.go:194-196 | one name sorts before another iff it is a proper beginning of it or smaller at the first difference |
| Inventory.OfTypeCounts | inventory/pkg/service/service.go:182-192 | filtering keeps every copy of a part of the type and drops all others |
| Inventory.SortByName | inventory/pkg/service/service.go:194-196 | the contract of the sort: a permutation ordered by name |
| Inventory.FoundInOrder | inventory/pkg/service/service.go:145-173 | a lookup succeeds with these parts iff each id, in request order and with duplicates, parses to a key whose part it is |
| Inventory.FirstFailure | inventory/pkg/service/service.go:147-158 | a lookup fails exactly for the first id that is no key's text: InvalidArgument if it does not parse, else NotFound |
| Inventory.ListingIsDetermined | inventory/pkg/service/service.go:175-213 | two walks of the map give the same names in the same order, and the same list when names differ |
| Inventory.ListingIsComplete | inventory/pkg/service/service.go:175-213 | a part is listed iff it is filed and of the requested type, or any type for 0, and then once for each key it is filed under |
| Payment.IssuesExactlyWhen | payment/pkg/service/service.go:20-48 | a transaction is issued iff the UUID text is non-empty and parses and the method is specified, and reads back as the drawn UUID; else InvalidArgument |
| Payment.PaymentServer.PayOrder | payment/pkg/service/service.go:20-48 | the answer, and one log line with the order as sent and the transaction exactly if one is issued |
| Handler.ChargeIsAccepted | order/pkg/handler/handler.go:275-288 | no payment call of the handler is refused by the server's checks, and the parsed transaction is the issued one |
| Handler.StoredMethodIsTheRequested | order/pkg/handler/handler.go:256-294 | the requested method survives the payment enum, its name and the trimmed prefix |
| Handler.SpecifiedMethodIsKnown | order/pkg/handler/handler.go:289 | the trimmed name of every specified payment method is one of the API's, and maps back to it |
| Creation.PartsMapHolds | order/pkg/handler/handler.go:170-174 | the index holds exactly the answered texts, each with a part carrying it |
| Creation.TallyIsTheSum | order/pkg/handler/handler.go:176-187 | the price loop stores the wrapped exact sum, one term per slot, unless a stock is empty |
| Creation.CreateIsDecidedBy | order/pkg/handler/handler.go:131-187 | 404 iff the call failed or hull, engine, or a given shield or weapon is not in the catalogue; else 409 iff one of them has no stock; else the wrapped sum of their prices |
| Creation.CreateIsAnswered | order/pkg/handler/handler.go:189-213 | a rejection leaves the store; an acceptance adds one pending order with the request's parts and reports it |
| Creation.EmptyTextIsBadRequest | order/pkg/handler/handler.go:141-147 | 400 for a hull or engine whose text is empty, which no lawful text is |
| Creation.SlotsAreTheNamed | order/pkg/handler/handler.go:131-139 | the ids asked for are those of hull, engine, and shield and weapon where given, and the sum goes over these |
| Creation.AnswersAreComplete | order/pkg/handler/handler.go:163-185 | a successful answer has one part per id and every id is in the index, so those conflict branches are dead |
| Creation.AcceptedIsPriced | order/pkg/handler/handler.go:193-202 | an accepted request becomes a pending record in good order |
| Creation.PriceIsExact | order/pkg/handler/handler.go:177-187 | four prices of at most a quarter of the int64 range never wrap around |
| Invariant.StepKeepsInv | order/pkg/handler/handler.go:193-343 | every step of every call keeps the invariant, loses no record, changes no order data and returns none to pending |
| Invariant.ReachableIsOk | order/pkg/handler/handler.go:193-343 | every reachable state satisfies the invariant over records, snapshots, ledger and replies |
| Invariant.RecordsAreKept | order/pkg/handler/handler.go:205-340 | between any two points of a run orders stay, with the same parts, price and time, and never return to pending |
| Invariant.StoredDtoIsValid | order/pkg/handler/handler.go:87-119 | what a get reports of a stored order passes the generated validation |
| Invariant.ReportedPriceWrapsOrIsExact | order/pkg/handler/handler.go:108-119 | in every reachable state each reported part is in the catalogue with stock, and the price is price(hull) + price(engine) + those of shield and weapon where reported, modulo 2^64; that sum itself iff it fits an int64 |
| Invariant.ReportedPriceIsExact | order/pkg/handler/handler.go:108-119 | with no catalogue price above a quarter of the int64 range, it is exactly price(hull) + price(engine) + those of shield and weapon where reported |
| Lifecycle.OrdersComeFromRequests | order/pkg/handler/handler.go:189-213 | every stored order has the UUID, parts, time and price of one accepted create, whose caller was told them |
| Lifecycle.OrdersAreConserved | order/pkg/handler/handler.go:205-213 | in every reachable state there are as many orders as calls that were told of a creation |
| Lifecycle.ReportsAreWhatWasAsked | order/pkg/handler/handler.go:87-119 | whatever was paid or cancelled meanwhile, get reports the parts, time and price that create was asked for and answered |
| Lifecycle.CreatorStep | order/pkg/handler/handler.go:205-213 | only the write of a create adds an order, under a UUID no order has, and reports it |
| Lifecycle.KnownExactlyWhenCreated | order/pkg/handler/handler.go:205-213 | in every reachable state an order is known iff some call was told that it was created |
| Answers.PayIsDecidedBy | order/pkg/handler/handler.go:220-304 | pay by what is stored: 404 unknown, 409 paid or cancelled, no response for an unknown method, 500 if the payment call is not answered, else the transaction, with which the order is stored as paid; nothing else is stored |
| Answers.CancelIsDecidedBy | order/pkg/handler/handler.go:309-343 | cancel by what is stored: 404 unknown, 409 paid or cancelled, else stored as cancelled; nothing else is stored |
| Answers.PayBeginIsDecidedBy | order/pkg/handler/handler.go:222-269 | among interleaved calls the same rules reject a pay when it reads; else it goes on with what it read |
| Answers.CancelBeginIsDecidedBy | order/pkg/handler/handler.go:310-334 | likewise for cancel |
| Answers.GetTellsTheLastWrite | order/pkg/handler/handler.go:73-120 | in every reachable state get answers 404 for an unknown order, and reports pending, cancelled or paid iff nothing, a cancellation or a payment of it was written last |
| Answers.PaidReportIsTheLastPayment | order/pkg/handler/handler.go:98-119 | a paid order is reported with the transaction that the last writer was told and the method that call was asked for |
| Answers.GetIsAnsweredAtOnce | order/pkg/handler/handler.go:73-85 | a get among interleaved calls is answered from the store of its one step |
| Steps.BeginStep | order/pkg/handler/handler.go:222-269 | a call begins with the stored record as its snapshot, the order it will store, or its rejection, and touches nothing else |
| Steps.ChargeStep | order/pkg/handler/handler.go:274-288 | a payment call keeps the store and moves its own call only, on to the write or to the error answer |
| Freeze.TerminalStep | order/pkg/handler/handler.go:291-340 | only a call that already held a snapshot can change a terminal record, and it then holds none; no new holder appears |
| Freeze.RewritesAreBounded | order/pkg/handler/handler.go:222-340 | changes of a terminal record plus the snapshots still in flight never exceed the snapshots in flight at the start |
| Freeze.NothingInFlightFreezes | order/pkg/handler/handler.go:222-340 | a terminal record on which nothing is in flight never changes again |
| Refinement.RefinesExactlyWhenNothingOverlaps | order/pkg/handler/handler.go:205-342 | store and all replies are those of the atomic machine on the linearised operations iff no writes overlap |
| Refinement.NonOverlappingMeansCurrent | order/pkg/handler/handler.go:222-340 | no overlap in a run iff every write finds its order still pending |
| Refinement.OpMatchesEvent | order/pkg/handler/handler.go:222-342 | each event with a current write does to the store what the operation linearised there does, and gives its reply |
| Refinement.Simulates | order/pkg/handler/handler.go:222-342 | one event with a current write matches at most one atomic operation, on store and on every reply |
| Refinement.CurrentRunsRefine | order/pkg/handler/handler.go:222-342 | from any point on, current writes only lead the atomic machine to the same end |
| Refinement.StaleWriteIsRejected | order/pkg/handler/handler.go:291-342 | at a stale write the atomic machine rejects what the run reports as done |
| Refinement.WrongReplyStays | order/pkg/handler/handler.go:222-342 | a reply that differs is never corrected later |
| Refinement.StaleRunsDiverge | order/pkg/handler/handler.go:222-342 | a run with one stale write ends in something the linearised operations do not show |
| Conservation.PaymentsAreConserved | order/pkg/handler/handler.go:271-303 | for each order in every reachable state: issued = successful replies + charged and unwritten + lost answers |
| Conservation.StoredPaymentsWereIssued | order/pkg/handler/handler.go:288-297 | a stored transaction is in the issuer's ledger for that order and that method |
| Conservation.SuccessesMatchStatus | order/pkg/handler/handler.go:291-303 | in every reachable state, per order: one successful payment reply if paid and none otherwise, iff no payment of it was overwritten by a call that had read it before |
| Conservation.OneTransactionPerPaidOrder | order/pkg/handler/handler.go:271-303 | no lost answer and nothing in flight for an order: one transaction if paid and none otherwise, iff no payment of it was overwritten |
| Finality.PaidTwiceExactlyWhen | order/pkg/handler/handler.go:220-304 | two payments of an order succeed iff one is written between the other's read and write |
| Finality.PaidIsCancelledExactlyWhen | order/pkg/handler/handler.go:309-343 | a paid order stops being paid iff a cancellation overwrites a payment made since it read the order |
| Finality.CancelledIsPaidExactlyWhen | order/pkg/handler/handler.go:220-304 | a cancelled order is later paid iff a payment overwrites a cancellation made since it read the order |
| Finality.FinalRecordChangesExactlyWhen | order/pkg/handler/handler.go:222-342 | the record of a paid or cancelled order changes iff writes of it overlap of which one at least is a payment |
| Refinement.TwoWritesOverlap | order/pkg/handler/handler.go:222-342 | any two writes of pay or cancel to one order overlap: the later one's call had read before the earlier write |
| Linearisability.ExplainedExactlyWhenNothingOverlaps | order/pkg/handler/handler.go:205-342 | some whole operations in some order show clients what a run shows them, store and every reply, iff no writes overlap |
| Linearisability.OperationsKeepBalance | order/pkg/handler/handler.go:220-343 | in the atomic machine the calls told of a payment or cancellation never outnumber the final orders |
| Linearisability.StaleWritesTip | order/pkg/handler/handler.go:291-342 | in every reachable state the calls told of a payment or cancellation exceed the final orders by exactly the number of stale writes so far |
| Linearisability.RealTimeOrderIsKept | order/pkg/handler/handler.go:205-342 | a call that has its reply before another begins takes effect before it |
| Linearisability.EachReplyTakesEffectOnce | order/pkg/handler/handler.go:205-342 | of the linearised operations exactly one is of each call that has its reply, and none of any other call |
| Linearisability.LinearisedDrawsFresh | order/pkg/handler/handler.go:189-207 | the linearised operations of a run with current writes draw UUIDs that no stored order has |
| Race.PaidCanBeOverwritten | order/pkg/handler/handler.go:309-340 | for every acceptable request a run in which a paid order ends as cancelled, both clients told of success |
| Race.CancelledCanBePaid | order/pkg/handler/handler.go:220-304 | for every acceptable request a run in which a cancelled order, its client told so, is charged and ends as paid |
| Race.OrderCanBePaidTwice | order/pkg/handler/handler.go:220-298 | for every acceptable request a run in which two payments of one order succeed |
| Race.PriceCanWrap | order/pkg/handler/handler.go:176-187 | a catalogue, a request and a run whose order reports the least int64 as its price |
| Race.AtomicRunsKeepPayments | order/pkg/handler/handler.go:220-343 | in the atomic machine every reported payment stays visible in the store |
| Race.NoAtomicOrderExplainsTheRace | order/pkg/handler/handler.go:220-343 | the pay and cancel race is a run, for every acceptable request, that no whole operations explain |
| Race.SomeRequestIsAccepted | order/pkg/handler/handler.go:125-214 | there are a catalogue and a request that create accepts |
| RequiredFields.RequiredFailures | shared/pkg/openapi/order/v1/oas_json_gen.go:1149-1181 | the loop over bytes emits the names of the missing required fields and nothing else |
| RequiredFields.TakeBits | shared/pkg/openapi/order/v1/oas_json_gen.go:1155-1178 | the inner loop names each set bit of a non-zero byte once, ascending, and ends with no bit left |
| RequiredFields.LowestBitIsHead | shared/pkg/openapi/order/v1/oas_json_gen.go:1161-1175 | clearing the bit at the trailing-zero count takes exactly the first listed bit |
| RequiredFields.MissingIsExact | shared/pkg/openapi/order/v1/oas_json_gen.go:1149-1181 | a field is reported iff it is required and was not seen; each once, ascending |
| RequiredFields.NamesAreDeclared | shared/pkg/openapi/order/v1/oas_json_gen.go:1010-1021 | with masks over declared fields the numeric name is never used |
| JsonObject.Decode | shared/pkg/openapi/order/v1/oas_json_gen.go:1024-1184 | the loop over members with its bit set computes the fold and then the required-field check |
| JsonObject.SeenIsExact | shared/pkg/openapi/order/v1/oas_json_gen.go:1031-1148 | a bit is set iff its field is required and its key occurs |
| JsonObject.DecodesExactlyWhen | shared/pkg/openapi/order/v1/oas_json_gen.go:1024-1184 | success iff every occurrence of a known key decodes and every required key occurs |
| JsonObject.FailsExactlyWith | shared/pkg/openapi/order/v1/oas_json_gen.go:1024-1184 | a failure names the first member that does not decode, or if all do, the required fields that do not occur, ascending |
| JsonObject.PrintedIsExact | shared/pkg/openapi/order/v1/oas_json_gen.go:951-1008 | a member is printed iff it is a field that is, under its name |
| JsonObject.DecodeYieldsLast | shared/pkg/openapi/order/v1/oas_json_gen.go:1024-1184 | a success holds, for each field, the last value of its key |
| JsonObject.UnknownMembersDoNotMatter | shared/pkg/openapi/order/v1/oas_json_gen.go:1142-1143 | a member with an unknown key changes neither result nor error, wherever it stands |
| JsonObject.OrderDoesNotMatter | shared/pkg/openapi/order/v1/oas_json_gen.go:1024-1184 | objects with the same members, repeated keys included, decode alike when each key's last value is the same |
| JsonObject.NeighboursMaySwap | shared/pkg/openapi/order/v1/oas_json_gen.go:1024-1184 | in any object, neighbours with different keys may change places |
| JsonObject.DistinctKeysMayBePermuted | shared/pkg/openapi/order/v1/oas_json_gen.go:1024-1184 | members whose keys all differ may come in any order |
| JsonObject.RoundTrip | shared/pkg/openapi/order/v1/oas_json_gen.go:951-1184 | for every schema whose printed fields decode and whose required ones are printed, decoding undoes encoding |
| OrderJson.EncodeDto | shared/pkg/openapi/order/v1/oas_json_gen.go:959-1008 | the printer emits the fields in order, the optional ones iff set |
| OrderJson.DtoDecodesToLastValues | shared/pkg/openapi/order/v1/oas_json_gen.go:1024-1184 | an OrderDto decodes iff its known members do and the six required keys occur, to the last values |
| OrderJson.DtoMembersDecodeExactlyWhen | shared/pkg/openapi/order/v1/oas_json_gen.go:1030-1145 | which values each member may have: texts of UUIDs, null where optional, an int64, a text, the text of an instant; unknown members any |
| OrderJson.StatusOnTheWire | shared/pkg/openapi/order/v1/oas_json_gen.go:993-1002 | the texts under which each status and method is printed |
| OrderJson.OptUuidSurvives | shared/pkg/openapi/order/v1/oas_json_gen.go:887-936 | an optional UUID is omitted, null or a value, and is read back as such without its hidden value |
| OrderJson.OptMethodSurvives | shared/pkg/openapi/order/v1/oas_json_gen.go:839-885 | likewise for an optional payment method |
| OrderJson.DtoRoundTrip | shared/pkg/openapi/order/v1/oas_json_gen.go:951-1184 | for every OrderDto, decode(encode(x)) is x with optional fields and time normalised |
| OrderJson.NormKeepsTheOrder | shared/pkg/openapi/order/v1/oas_json_gen.go:852-1184 | what survives the wire: all of an order, each optional field absent, null or its value as before, but the time's precision |
| OrderJson.NullIsReadAsNull | shared/pkg/openapi/order/v1/oas_json_gen.go:863-930 | a null is read as set and null |
| RequestJson.NormKeepsTheRequest | shared/pkg/openapi/order/v1/oas_json_gen.go:364-496 | likewise all of a create request |
| OrderJson.NormDtoIsIdempotent | shared/pkg/openapi/order/v1/oas_json_gen.go:852-1184 | normalising twice is normalising once |
| RequestJson.EncodeCreate | shared/pkg/openapi/order/v1/oas_json_gen.go:372-393 | the printer emits hull and engine, and shield and weapon iff set |
| RequestJson.CreateDecodesToLastValues | shared/pkg/openapi/order/v1/oas_json_gen.go:403-496 | a create request decodes iff its known members do and hull and engine occur, to the last values |
| RequestJson.CreateRoundTrip | shared/pkg/openapi/order/v1/oas_json_gen.go:364-496 | decode(encode(x)) is x with optional fields normalised |
| RequestJson.CreateMembersDecodeExactlyWhen | shared/pkg/openapi/order/v1/oas_json_gen.go:409-456 | which values the members of a create request may have |
| RequestJson.ErrorOnTheWire | shared/pkg/openapi/order/v1/oas_json_gen.go:625-722 | what an error body is printed as, and what is read as one |
| RequestJson.CreatedOnTheWire | shared/pkg/openapi/order/v1/oas_json_gen.go:512-609 | what a create response is printed as, and what is read as one |
| RequestJson.PayOnTheWire | shared/pkg/openapi/order/v1/oas_json_gen.go:1394-1472 | what a pay request is printed as, and what is read as one |
| RequestJson.PaidOnTheWire | shared/pkg/openapi/order/v1/oas_json_gen.go:1488-1568 | what a pay response is printed as, and what is read as one |
| RequestJson.ErrorRoundTrip | shared/pkg/openapi/order/v1/oas_json_gen.go:632-722 | an error body survives the wire |
| RequestJson.CreatedRoundTrip | shared/pkg/openapi/order/v1/oas_json_gen.go:519-609 | a create response survives the wire |
| RequestJson.PayRoundTrip | shared/pkg/openapi/order/v1/oas_json_gen.go:1401-1472 | a pay request survives the wire, an unknown method included |
| RequestJson.PaidRoundTrip | shared/pkg/openapi/order/v1/oas_json_gen.go:1495-1568 | a pay response survives the wire |
| Router.IndexOfSlash | shared/pkg/openapi/order/v1/oas_router_gen.go:93-100 | the parameter ends at the first slash or at the end |
| Router.ServeHTTP | shared/pkg/openapi/order/v1/oas_router_gen.go:37-195 | the normalised raw path where there is one, else the path, is served as a plain template matcher does; escaped iff the former holds a percent sign |
| Router.Dispatch | shared/pkg/openapi/order/v1/oas_router_gen.go:54-194 | the trie does what a plain template matcher does, for every prefix, verb and path |
| Router.MatchIsExact | shared/pkg/openapi/order/v1/oas_router_gen.go:54-195 | a match with an argument iff the path is that instance of that template |
| Router.InstanceIsUnique | shared/pkg/openapi/order/v1/oas_router_gen.go:54-195 | no path instantiates two templates, or one with two arguments |
| Router.RouteMeetsTemplates | shared/pkg/openapi/order/v1/oas_router_gen.go:22-195 | dispatch iff template and verb match; refusal iff the template matches and the verb does not; not found iff no template matches |
| Router.AnswerWriter.WriteRefusal | shared/pkg/openapi/order/v1/oas_cfg_gen.go:117-148 | status and all headers of a refusal, over whatever was set before, or the OPTIONS headers alone and the list for a configured hook |
| Router.RefusalListsWhatDispatches | shared/pkg/openapi/order/v1/oas_cfg_gen.go:117-148 | 405 with Allow iff not OPTIONS; the list is exactly the dispatching verbs; a content type is offered exactly for verbs that dispatch to an operation with a body |
| Router.FindPath | shared/pkg/openapi/order/v1/oas_router_gen.go:248-406 | the second trie describes exactly what the matcher dispatches, its argument unescaped where there is a raw path |
| Router.Describe | shared/pkg/openapi/order/v1/oas_router_gen.go:271-405 | the trie finds the route of exactly what the matcher dispatches, with all its fields |
| Router.InfoIsDeclared | shared/pkg/openapi/order/v1/oas_router_gen.go:290-395 | each operation is described by its name, id and template pattern, with one parameter unless it is create |
| Router.RunBoth | shared/pkg/openapi/order/v1/oas_router_gen.go:37-406 | both routers agree on operation and argument, and both on the templates; with a raw path up to unescaping |
| Router.TwinsAgreeOnTextExactlyWhen | shared/pkg/openapi/order/v1/oas_router_gen.go:248-264 | the described argument is the text the handler parses iff the raw path is absent or normalisable, or the argument has no escapes or broken ones |
| Router.TwinsCanDiffer | shared/pkg/openapi/order/v1/oas_router_gen.go:248-264 | with a raw path that cannot be normalised an argument is described unescaped once too often |
| ClientPath.BuildPath | shared/pkg/openapi/order/v1/oas_client_gen.go:142-165 | the joined path parts are the operation's template with the escaped UUID |
| ClientPath.DecodeParam | shared/pkg/openapi/order/v1/oas_parameters_gen.go:35-82 | the parameter is the UUID of its text, unescaped if need be; refused if it cannot be unescaped, is empty or does not parse |
| ClientPath.ClientPathRoundTrip | shared/pkg/openapi/order/v1/oas_client_gen.go:142-165 | for every operation, prefix and UUID, routing the client's path selects the operation and recovers the UUID |
| Wire.ValidateDto | shared/pkg/openapi/order/v1/oas_validators_gen.go:10-62 | exactly the invalid fields are reported, each once and in order, and none iff the order is valid |
| Wire.ResponseWriter.WriteReply | shared/pkg/openapi/order/v1/oas_response_encoders_gen.go:14-287 | the writer ends with the variant's status and type and its body appended, and untouched for a reply that is no variant |
| Wire.ReadGetResponse | shared/pkg/openapi/order/v1/oas_response_decoders_gen.go:378-531 | the status switch with body, trailing data and validation gives the variant or the error |
| Wire.SentStatus | shared/pkg/openapi/order/v1/oas_response_encoders_gen.go:14-287 | the status sent for each variant, as JSON; nothing for get's conflict and a bare error |
| Wire.ErrorsAreReadExactly | shared/pkg/openapi/order/v1/oas_response_decoders_gen.go:16-712 | an error variant is read iff the status is its own, the media type JSON and the body one object that is an error |
| Wire.SuccessesAreReadExactly | shared/pkg/openapi/order/v1/oas_response_decoders_gen.go:16-712 | a success is read iff the status is the operation's, the media type JSON and the body one object of its kind, an order only if valid |
| Wire.RefusalsAreExact | shared/pkg/openapi/order/v1/oas_response_decoders_gen.go:16-712 | a client refuses a response for its status, else its media type, else its body, else the order in it |
| Wire.ReplyRoundTrip | shared/pkg/openapi/order/v1/oas_response_decoders_gen.go:16-712 | a coherent reply reaches the client as the same variant with the same content, normalised |
| Wire.ReachableRepliesAreFaithful | shared/pkg/openapi/order/v1/oas_response_encoders_gen.go:14-287 | every reply of a reachable state is encoded, an error's code is the HTTP status sent, and the client gets the same variant |
| Wire.ReportedOrdersAreFaithful | shared/pkg/openapi/order/v1/oas_response_decoders_gen.go:378-420 | what get reports in a reachable state validates and reaches the client; a paid order's method is the one charged |
| Wire.ValidRequestsGetResponses | order/pkg/handler/handler.go:256-269 | a validated pay request never ends in a bare error for its method |
| EndToEnd.ReadRequest | shared/pkg/openapi/order/v1/oas_handlers_gen.go:543-564 | routing, parameter, media type, body and validation, in this order, read the request or name the first refusal |
| EndToEnd.NotRoutedExactlyWhen | shared/pkg/openapi/order/v1/oas_router_gen.go:37-195 | no handler is called iff path and verb are those of no operation |
| EndToEnd.CreateIsReadExactly | shared/pkg/openapi/order/v1/oas_request_decoders_gen.go:17-86 | any create request: read iff JSON and one object that decodes; else refused for media type, missing body or bad body |
| EndToEnd.PlainIsReadExactly | shared/pkg/openapi/order/v1/oas_handlers_gen.go:400-409 | any get or cancel request: read iff its parameter is the text of a UUID, with that UUID; else refused for what is wrong with it |
| EndToEnd.PayIsReadExactly | shared/pkg/openapi/order/v1/oas_request_decoders_gen.go:88-165 | any pay request: read iff parameter, media type, body and method are right; else refused for the first that is not |
| EndToEnd.RequestsArriveIntact | shared/pkg/openapi/order/v1/oas_request_decoders_gen.go:17-165 | every request the client sends is read as sent, normalised, except a payment with an unknown method, which is refused |
| EndToEnd.NormalisedMeansTheSame | order/pkg/handler/handler.go:125-214 | store and reply do not depend on what a request's unset or null fields hide |
| EndToEnd.AnswersAreCoherent | order/pkg/handler/handler.go:73-343 | over a store in order every valid request is answered with a variant of its own response type |
| EndToEnd.RemoteCallsAreTransparent | shared/pkg/openapi/order/v1/oas_handlers_gen.go:543-622 | in every reachable state an undisturbed remote call changes the store as the handler does and gives the client its answer, normalised |
| EndToEnd.InterleavedCallsAreTransparent | shared/pkg/openapi/order/v1/oas_handlers_gen.go:543-622 | in every run, whatever is interleaved, a call begun on the request read by the server serves the operation meant, and the client gets its reply, normalised |
| EndToEnd.BeginsAlike | order/pkg/handler/handler.go:125-139 | beginning a call on the normal form of a request changes the system as beginning it on the request does |
| EndToEnd.UnknownMethodsAreRefused | shared/pkg/openapi/order/v1/oas_request_decoders_gen.go:153-160 | a payment with an unknown method never reaches the handler |
| Service.OrderStore.Put | order/pkg/handler/handler.go:296-298 | the locked block stores one whole record and nothing else |
| Service.OrderHandler.GetOrder | order/pkg/handler/handler.go:73-120 | the reply is what the store says, and 404 without a record |
| Service.OrderHandler.CollectUuids | order/pkg/handler/handler.go:131-139 | the requested ids are the texts of exactly the named slots, in order |
| Service.OrderHandler.ReadForCreate | order/pkg/handler/handler.go:125-187 | everything before the write computes the price or the rejection that the protocol's create begins with |
| Service.OrderHandler.CreateOrder | order/pkg/handler/handler.go:125-214 | store and reply after an undisturbed create are those of the atomic machine |
| Service.OrderHandler.ReadForPay | order/pkg/handler/handler.go:222-269 | the read-locked block and the checks give the snapshot or the rejection that the protocol's pay begins with |
| Service.OrderHandler.WritePaid | order/pkg/handler/handler.go:291-298 | the block after the payment call overwrites the record with the paid snapshot |
| Service.OrderHandler.PayOrder | order/pkg/handler/handler.go:220-304 | store and reply after an undisturbed pay are those of the atomic machine, and the server issued one transaction, for that order and method, exactly if it was asked and acted |
| Service.OrderHandler.ReadForCancel | order/pkg/handler/handler.go:310-334 | the read-locked block and the checks give the snapshot or the rejection that the protocol's cancel begins with |
| Service.OrderHandler.CancelOrder | order/pkg/handler/handler.go:309-343 | store and reply after an undisturbed cancel are those of the atomic machine |
| Service.IndexParts | order/pkg/handler/handler.go:170-174 | the index loop leads each text to the last part that carries it |
| Service.TotalPrice | order/pkg/handler/handler.go:176-187 | the price loop adds with machine addition and gives up at the first id without part or stock |

## Left out

- Process start-up, listeners, shutdown, HTTP timeouts, logging and recovery interceptors: plumbing around the calls.
- gRPC and protobuf stubs: only the message shapes and the names of the payment methods are kept.
- Tracing, metrics and middleware: telemetry around one call. Of the generated request handlers only the order of
  parameter, body, handler and response is kept.
- Byte-level JSON, including text escapes and number syntax: members arrive as keys with scalar values. A nested value
  stands as an opaque one that only skipping accepts.
- Media types: taken as parsed already, equal or not to the expected one. Copying and re-reading of a body's bytes.
- How the libraries normalise a raw path and unescape an argument: both are arbitrary functions here.
- What a configured hook for refused requests or unknown paths answers.
- Loss of an HTTP request or response between client and order service.
- Appending path parts to a base URL: taken as concatenation.
- The error handler: what is sent for a bare handler error or for a refused request is not described.
- Wire.ReadGetResponse: the other three response decoders repeat its pattern; they are the cases of `Wire.DecodeReply` and
  are not written out as methods.
- Wall-clock time: an order's time is a parameter of its create.
- Stock reservation: the code never lowers a stock.
- The seed parts and the single-part query: the theorems quantify over all catalogues, and the query repeats one lookup.
- The setters, `Reset`, `SetTo`, `Or` and the text marshallers of the generated types: one line each.
- Concurrent access inside one map operation: the locks make each bracketed block atomic, which the model takes over.
- Inventory.SortByName: stands for the library sort with an insertion of its own; only the contract is used.
