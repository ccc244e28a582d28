# Buck: distributed-build event ranges, cgo file naming, the Swift config view and C/C++ Python extensions

This is a Dafny model of four parts of the Buck build tool:

- **`BuildSlaveEventsRange`**, the Thrift-generated response struct of a distributed build's
  "events in this range" query. It has four optional fields:
  - `success`, a bool whose presence lives in an is-set bit;
  - `errorMessage`;
  - `query`;
  - `events`, a list.

  The model covers:
  - the presence-aware setters, unsetters and `clear`;
  - `addToEvents`;
  - the deep copy;
  - `equals` and `compareTo`;
  - the field-id table;
  - `validate`;
  - the two wire schemes, over an abstract token stream. The *standard* scheme is tagged fields ending in STOP. The *tuple* scheme is a 4-bit presence set, then the present fields.

  Modules: `RangeValues` is the value view, `RangeProtocol` the schemes as functions, and `RangeStruct` the mutable class. Its read and write methods are loops proved against those functions.
- **`CGoGenSource`** (module `CGoGen`), the rule that runs `cgo`. From the relative paths of the cgo sources, its constructor derives three lists of files under the generated directory `genDir`:
  - per source, `<stem>.cgo1.go` and `<stem>.cgo2.c`;
  - then three fixed files.

  The module also covers the rule's getters and the order of its build steps.
- **`SwiftBuckConfig`** (module `SwiftConfig`), the typed view of the `[swift]` configuration section:
  - flag strings are trimmed and then split on single spaces;
  - booleans have per-key defaults.
- **`CxxPythonExtensionDescription`** (module `CxxPythonExtension`):
  - the `.so` naming rule and the module name and path;
  - the library-type flavors and the flavor-domain lookup;
  - the dispatch of `createBuildRule`;
  - `getPlatformDeps`;
  - the placeholder rule, which remembers every extension it hands out.

`BuildRules` holds the shared graph entities: targets, flavors, rules, source paths, path joining, and the natural-order sorted set. `Optional` holds `Option` and `Result`.

Inputs the model does not compute itself:
- the file system's relativized paths;
- the parse of a boolean config value;
- the rule resolver;
- the three rule builders;
- `PythonUtil.getBasePath`;
- the validity check of a nested `BuildSlaveEventsQuery`.

## Model

| member | source | states |
|---|---|---|
| RangeValues.FindByThriftId | src-gen/com/facebook/buck/distributed/thrift/BuildSlaveEventsRange.java:45-58 | ids 1..4 give the field with that id; every other id gives none |
| RangeValues.FindByThriftIdOrThrow | src-gen/com/facebook/buck/distributed/thrift/BuildSlaveEventsRange.java:64-68 | succeeds exactly on ids 1..4, with the field of that id; otherwise fails naming the id |
| RangeValues.FindByThriftIdInverse | src-gen/com/facebook/buck/distributed/thrift/BuildSlaveEventsRange.java:45-58 | looking a field up by its own id gives the field back |
| RangeValues.ThriftId | src-gen/com/facebook/buck/distributed/thrift/BuildSlaveEventsRange.java:29-32 | SUCCESS, ERROR_MESSAGE, QUERY and EVENTS have ids 1 to 4; FindByThriftIdInverse shows the id names its field |
| RangeValues.FieldName | src-gen/com/facebook/buck/distributed/thrift/BuildSlaveEventsRange.java:29-32 | each field under its declared name: success, errorMessage, query, events |
| RangeValues.IsSet | src-gen/com/facebook/buck/distributed/thrift/BuildSlaveEventsRange.java:317-334 | the presence of the named field: the success bit, or a non-null value; the struct-level IsSetField is proved equal to it |
| RangeValues.Validate | src-gen/com/facebook/buck/distributed/thrift/BuildSlaveEventsRange.java:519-525 | only a present query is checked; ValidateIgnoresPresence and StandardWriteFailsOnlyOnInvalidQuery give its meaning |
| RangeValues.ValidateIgnoresPresence | src-gen/com/facebook/buck/distributed/thrift/BuildSlaveEventsRange.java:519-525 | when the nested query is valid, any combination of set and unset fields passes validation |
| RangeValues.Normalize | src-gen/com/facebook/buck/distributed/thrift/BuildSlaveEventsRange.java:356-363 | the reference form: a stale success value under a clear bit is dropped, and everything else is kept |
| RangeValues.EqualsIffSameNormalForm | src-gen/com/facebook/buck/distributed/thrift/BuildSlaveEventsRange.java:344-387 | equals holds iff each field is unset in both structs, or set in both with equal values |
| RangeValues.Equals | src-gen/com/facebook/buck/distributed/thrift/BuildSlaveEventsRange.java:344-387 | each field is absent in both or present in both with equal values; EqualsIffSameNormalForm ties it to Normalize in both directions |
| RangeValues.StaleSuccessIgnored | src-gen/com/facebook/buck/distributed/thrift/BuildSlaveEventsRange.java:356-363 | while the success bit is clear, the stored success value does not affect equality |
| RangeValues.EqualsIsEquivalence | src-gen/com/facebook/buck/distributed/thrift/BuildSlaveEventsRange.java:344-387 | equals is reflexive, symmetric and transitive |
| RangeValues.CompareBool | src-gen/com/facebook/buck/distributed/thrift/BuildSlaveEventsRange.java:420-425 | Boolean order: zero iff equal, false before true |
| RangeValues.CompareInt | src-gen/com/facebook/buck/distributed/thrift/BuildSlaveEventsRange.java:444-448 | the sign of the integer order on the opaque keys |
| RangeValues.SuccessView | src-gen/com/facebook/buck/distributed/thrift/BuildSlaveEventsRange.java:420-429 | the success value is visible exactly when its bit is set |
| RangeValues.CompareTo | src-gen/com/facebook/buck/distributed/thrift/BuildSlaveEventsRange.java:413-461 | the result is a sign, -1, 0 or 1 |
| RangeValues.CompareStrings | src-gen/com/facebook/buck/distributed/thrift/BuildSlaveEventsRange.java:434-438 | the sign of String.compareTo; CompareStringsIsOrder and CompareStringsTransitive show it is a total order |
| RangeValues.CompareEvents | src-gen/com/facebook/buck/distributed/thrift/BuildSlaveEventsRange.java:454-458 | the list order, size first; CompareEventsIsOrder and CompareEventsTransitive show it is a total order |
| RangeValues.CompareEventsFrom | src-gen/com/facebook/buck/distributed/thrift/BuildSlaveEventsRange.java:454-458 | the element-wise step from position i; CompareEventsFromIsOrder and CompareEventsFromTransitive give its meaning |
| RangeValues.ComparePresence | src-gen/com/facebook/buck/distributed/thrift/BuildSlaveEventsRange.java:420-429 | unset sorts before set (-1 and 1), and the value order decides only when both are set |
| RangeValues.SuccessOrder | src-gen/com/facebook/buck/distributed/thrift/BuildSlaveEventsRange.java:420-429 | the success step; SuccessOrderIsOrder and FieldOrdersTransitive show it is an order on the success view |
| RangeValues.ErrorMessageOrder | src-gen/com/facebook/buck/distributed/thrift/BuildSlaveEventsRange.java:430-439 | the errorMessage step; ErrorMessageOrderIsOrder and FieldOrdersTransitive give its meaning |
| RangeValues.QueryOrder | src-gen/com/facebook/buck/distributed/thrift/BuildSlaveEventsRange.java:440-449 | the query step; QueryOrderIsOrder and FieldOrdersTransitive give its meaning |
| RangeValues.EventsOrder | src-gen/com/facebook/buck/distributed/thrift/BuildSlaveEventsRange.java:450-459 | the events step; EventsOrderIsOrder and FieldOrdersTransitive give its meaning |
| RangeValues.CompareStringsIsOrder | src-gen/com/facebook/buck/distributed/thrift/BuildSlaveEventsRange.java:434-438 | the string comparison is zero iff the strings are equal, and flips sign when the arguments are swapped |
| RangeValues.CompareStringsTransitive | src-gen/com/facebook/buck/distributed/thrift/BuildSlaveEventsRange.java:434-438 | the string comparison is transitive |
| RangeValues.CompareEventsFromIsOrder | src-gen/com/facebook/buck/distributed/thrift/BuildSlaveEventsRange.java:454-458 | on equal-length lists, the element-wise comparison from position i is zero iff the suffixes from i are equal, and is antisymmetric |
| RangeValues.CompareEventsFromTransitive | src-gen/com/facebook/buck/distributed/thrift/BuildSlaveEventsRange.java:454-458 | the element-wise comparison is transitive |
| RangeValues.CompareEventsIsOrder | src-gen/com/facebook/buck/distributed/thrift/BuildSlaveEventsRange.java:454-458 | the list comparison (size first, then elements) is zero iff the lists are equal, and is antisymmetric |
| RangeValues.CompareEventsTransitive | src-gen/com/facebook/buck/distributed/thrift/BuildSlaveEventsRange.java:454-458 | the list comparison is transitive |
| RangeValues.FieldOrdersAreOrders | src-gen/com/facebook/buck/distributed/thrift/BuildSlaveEventsRange.java:413-461 | each field step (presence first, unset before set, then value) is zero iff the two views of the field agree, and is antisymmetric |
| RangeValues.SuccessOrderIsOrder | src-gen/com/facebook/buck/distributed/thrift/BuildSlaveEventsRange.java:420-429 | the success step is zero iff both success views agree, and is antisymmetric |
| RangeValues.ErrorMessageOrderIsOrder | src-gen/com/facebook/buck/distributed/thrift/BuildSlaveEventsRange.java:430-439 | the errorMessage step is zero iff the fields are equal, and is antisymmetric |
| RangeValues.QueryOrderIsOrder | src-gen/com/facebook/buck/distributed/thrift/BuildSlaveEventsRange.java:440-449 | the query step is zero iff the fields are equal, and is antisymmetric |
| RangeValues.EventsOrderIsOrder | src-gen/com/facebook/buck/distributed/thrift/BuildSlaveEventsRange.java:450-459 | the events step is zero iff the fields are equal, and is antisymmetric |
| RangeValues.FieldOrdersTransitive | src-gen/com/facebook/buck/distributed/thrift/BuildSlaveEventsRange.java:413-461 | each field step is transitive |
| RangeValues.CompareToZeroIffEquals | src-gen/com/facebook/buck/distributed/thrift/BuildSlaveEventsRange.java:413-461 | compareTo is zero exactly when equals holds, so x.compareTo(x) is zero |
| RangeValues.CompareToAntisymmetric | src-gen/com/facebook/buck/distributed/thrift/BuildSlaveEventsRange.java:413-461 | swapping the arguments negates the result of compareTo |
| RangeValues.CompareToTransitive | src-gen/com/facebook/buck/distributed/thrift/BuildSlaveEventsRange.java:413-461 | compareTo is transitive |
| RangeValues.CompareToRespectsEquals | src-gen/com/facebook/buck/distributed/thrift/BuildSlaveEventsRange.java:413-461 | structs that are equal compare alike against every struct |
| RangeProtocol.Overlay | src-gen/com/facebook/buck/distributed/thrift/BuildSlaveEventsRange.java:562-609 | a read changes only the fields it decodes; every other field keeps its old value and presence |
| RangeProtocol.OverlayOnCleared | src-gen/com/facebook/buck/distributed/thrift/BuildSlaveEventsRange.java:562-609 | decoding into a fresh struct gives the normal form of the decoded fields, which equals them |
| RangeProtocol.EventTokens | src-gen/com/facebook/buck/distributed/thrift/BuildSlaveEventsRange.java:645-650 | each list element is written as one nested struct, in list order |
| RangeProtocol.ReadEvents | src-gen/com/facebook/buck/distributed/thrift/BuildSlaveEventsRange.java:591-599 | reading n elements succeeds iff n nested structs follow, and gives them in order; otherwise it fails as truncated or unexpected |
| RangeProtocol.ReadEventsOfWritten | src-gen/com/facebook/buck/distributed/thrift/BuildSlaveEventsRange.java:591-650 | the written elements read back as the same list, whatever follows them |
| RangeProtocol.Skip | src-gen/com/facebook/buck/distributed/thrift/BuildSlaveEventsRange.java:567-608 | a successful skip consumes at least one token and returns a suffix of its input |
| RangeProtocol.SkipElements | src-gen/com/facebook/buck/distributed/thrift/BuildSlaveEventsRange.java:567-608 | skipping list elements returns a suffix of its input |
| RangeProtocol.SkipAppend | src-gen/com/facebook/buck/distributed/thrift/BuildSlaveEventsRange.java:562-609 | skipping a value is unaffected by the tokens after it: they are left over unchanged |
| RangeProtocol.SkipElementsAppend | src-gen/com/facebook/buck/distributed/thrift/BuildSlaveEventsRange.java:562-609 | the same for the elements of a skipped list |
| RangeProtocol.PresenceBits | src-gen/com/facebook/buck/distributed/thrift/BuildSlaveEventsRange.java:672-685 | bit i of the presence set is on iff the field with id i+1 is set |
| RangeProtocol.TupleSuccessStep | src-gen/com/facebook/buck/distributed/thrift/BuildSlaveEventsRange.java:686-713 | the tuple reader's success step consumes exactly what the writer emitted for success |
| RangeProtocol.TupleErrorMessageStep | src-gen/com/facebook/buck/distributed/thrift/BuildSlaveEventsRange.java:689-717 | the same, for errorMessage |
| RangeProtocol.TupleQueryStep | src-gen/com/facebook/buck/distributed/thrift/BuildSlaveEventsRange.java:692-722 | the same, for query |
| RangeProtocol.TupleEventsStep | src-gen/com/facebook/buck/distributed/thrift/BuildSlaveEventsRange.java:695-736 | the same, for the events list: its size, then its elements |
| RangeProtocol.TupleSuccessField | src-gen/com/facebook/buck/distributed/thrift/BuildSlaveEventsRange.java:686-688 | the success value alone when it is set; TupleSuccessStep and TupleRoundTrip read it back |
| RangeProtocol.TupleErrorMessageField | src-gen/com/facebook/buck/distributed/thrift/BuildSlaveEventsRange.java:689-691 | the errorMessage value alone when it is set; TupleErrorMessageStep reads it back |
| RangeProtocol.TupleQueryField | src-gen/com/facebook/buck/distributed/thrift/BuildSlaveEventsRange.java:692-694 | the nested query when it is set; TupleQueryStep reads it back |
| RangeProtocol.TupleEventsField | src-gen/com/facebook/buck/distributed/thrift/BuildSlaveEventsRange.java:695-703 | the list size, then its elements, when it is set; TupleEventsStep reads it back |
| RangeProtocol.TupleWrite | src-gen/com/facebook/buck/distributed/thrift/BuildSlaveEventsRange.java:670-704 | the presence bit set, then the present fields in id order; TupleWriteSplit, TupleRoundTrip and TupleRoundTripFresh give its meaning |
| RangeProtocol.TupleRead | src-gen/com/facebook/buck/distributed/thrift/BuildSlaveEventsRange.java:707-737 | reads the bit set, then the fields it names, without validation; TupleRoundTrip shows it inverts TupleWrite |
| RangeProtocol.TupleReadSuccess | src-gen/com/facebook/buck/distributed/thrift/BuildSlaveEventsRange.java:710-713 | reads success when bit 0 is on; TupleSuccessStep gives its meaning |
| RangeProtocol.TupleReadErrorMessage | src-gen/com/facebook/buck/distributed/thrift/BuildSlaveEventsRange.java:714-717 | reads errorMessage when bit 1 is on; TupleErrorMessageStep gives its meaning |
| RangeProtocol.TupleReadQuery | src-gen/com/facebook/buck/distributed/thrift/BuildSlaveEventsRange.java:718-722 | reads query when bit 2 is on; TupleQueryStep gives its meaning |
| RangeProtocol.TupleReadEvents | src-gen/com/facebook/buck/distributed/thrift/BuildSlaveEventsRange.java:723-736 | reads the size and that many elements when bit 3 is on, failing on a negative size; TupleEventsStep gives its meaning |
| RangeProtocol.TupleRoundTrip | src-gen/com/facebook/buck/distributed/thrift/BuildSlaveEventsRange.java:667-737 | a tuple read of what the tuple write emitted restores every present field's value and presence over the old contents; trailing tokens are left unread |
| RangeProtocol.TupleWriteSplit | src-gen/com/facebook/buck/distributed/thrift/BuildSlaveEventsRange.java:670-704 | the tuple encoding followed by any tokens is the presence bit set, then each field segment in id order, then those tokens |
| RangeProtocol.TupleRoundTripFresh | src-gen/com/facebook/buck/distributed/thrift/BuildSlaveEventsRange.java:667-737 | a tuple write read back into a fresh struct gives a struct equal to the original |
| RangeProtocol.StandardSuccessStep | src-gen/com/facebook/buck/distributed/thrift/BuildSlaveEventsRange.java:563-626 | the standard reader takes the success field the writer emitted, and then goes on with the rest |
| RangeProtocol.StandardErrorMessageStep | src-gen/com/facebook/buck/distributed/thrift/BuildSlaveEventsRange.java:571-633 | the same, for errorMessage |
| RangeProtocol.StandardQueryStep | src-gen/com/facebook/buck/distributed/thrift/BuildSlaveEventsRange.java:579-640 | the same, for query |
| RangeProtocol.StandardEventsStep | src-gen/com/facebook/buck/distributed/thrift/BuildSlaveEventsRange.java:588-654 | the same, for the events list |
| RangeProtocol.StandardSuccessField | src-gen/com/facebook/buck/distributed/thrift/BuildSlaveEventsRange.java:622-626 | the success header and value when success is set; StandardSuccessStep reads it back |
| RangeProtocol.StandardErrorMessageField | src-gen/com/facebook/buck/distributed/thrift/BuildSlaveEventsRange.java:627-633 | the errorMessage header and value when it is set; StandardErrorMessageStep reads it back |
| RangeProtocol.StandardQueryField | src-gen/com/facebook/buck/distributed/thrift/BuildSlaveEventsRange.java:634-640 | the query header and nested struct when it is set; StandardQueryStep reads it back |
| RangeProtocol.StandardEventsField | src-gen/com/facebook/buck/distributed/thrift/BuildSlaveEventsRange.java:641-654 | the events header, list header and elements when it is set; StandardEventsStep reads it back |
| RangeProtocol.StandardFieldTokens | src-gen/com/facebook/buck/distributed/thrift/BuildSlaveEventsRange.java:622-654 | the four field segments in id order; FieldTokensHeaders shows its headers are the set fields' ids |
| RangeProtocol.StandardWrite | src-gen/com/facebook/buck/distributed/thrift/BuildSlaveEventsRange.java:618-657 | validate, then the set fields, then STOP; StandardWriteSplit, StandardWriteShape and StandardRoundTrip give its meaning |
| RangeProtocol.StandardReadFields | src-gen/com/facebook/buck/distributed/thrift/BuildSlaveEventsRange.java:556-615 | the read loop from a header on: STOP ends it with validation; UnknownFieldsSkipped and StandardRoundTrip give its meaning |
| RangeProtocol.StandardReadField | src-gen/com/facebook/buck/distributed/thrift/BuildSlaveEventsRange.java:562-609 | one field: a known id with its wire type is decoded, anything else is skipped; the Standard*Step lemmas and UnknownFieldSkipped give its meaning |
| RangeProtocol.StandardRead | src-gen/com/facebook/buck/distributed/thrift/BuildSlaveEventsRange.java:553-616 | the standard read into a struct holding the old contents; StandardRoundTrip and StandardRoundTripFresh show it inverts StandardWrite |
| RangeProtocol.StandardWriteSplit | src-gen/com/facebook/buck/distributed/thrift/BuildSlaveEventsRange.java:618-657 | a valid struct writes successfully, and its encoding is the success, errorMessage, query and events segments followed by STOP |
| RangeProtocol.StandardRoundTrip | src-gen/com/facebook/buck/distributed/thrift/BuildSlaveEventsRange.java:553-657 | a standard read of what the standard write emitted restores every set field over the old contents, provided the query passes validation |
| RangeProtocol.StandardRoundTripFresh | src-gen/com/facebook/buck/distributed/thrift/BuildSlaveEventsRange.java:553-657 | a standard write read back into a fresh struct gives a struct equal to the original |
| RangeProtocol.StandardWriteFailsOnlyOnInvalidQuery | src-gen/com/facebook/buck/distributed/thrift/BuildSlaveEventsRange.java:519-525 | the standard write throws exactly when a present query fails validation |
| RangeProtocol.UnknownFieldsSkipped | src-gen/com/facebook/buck/distributed/thrift/BuildSlaveEventsRange.java:562-609 | any run of fields the reader does not know (an unknown id, or a known id with another wire type), each followed by one whole value as the skip passes over it, lists included, changes nothing when placed before a field header |
| RangeProtocol.UnknownFieldSkipped | src-gen/com/facebook/buck/distributed/thrift/BuildSlaveEventsRange.java:562-609 | after a header the reader does not know, the read skips the value and continues from what follows it |
| RangeProtocol.UnknownListFieldSkipped | src-gen/com/facebook/buck/distributed/thrift/BuildSlaveEventsRange.java:604-605 | a two-element list under id 9 is one skipped field |
| RangeProtocol.MistypedListFieldSkipped | src-gen/com/facebook/buck/distributed/thrift/BuildSlaveEventsRange.java:564-569 | the success id sent with a list value is one skipped field |
| RangeProtocol.HeaderIdsAppend | src-gen/com/facebook/buck/distributed/thrift/BuildSlaveEventsRange.java:618-657 | the header ids of a concatenation are the concatenated header ids |
| RangeProtocol.NoHeadersInEvents | src-gen/com/facebook/buck/distributed/thrift/BuildSlaveEventsRange.java:645-650 | list elements contribute no field headers |
| RangeProtocol.SetFieldIds | src-gen/com/facebook/buck/distributed/thrift/BuildSlaveEventsRange.java:317-334 | the ids of the set fields, strictly ascending, holding the id of a field iff that field is set |
| RangeProtocol.HeaderIdsOfPair | src-gen/com/facebook/buck/distributed/thrift/BuildSlaveEventsRange.java:622-626 | a header followed by one value contributes exactly the header's id |
| RangeProtocol.FieldSegmentHeaders | src-gen/com/facebook/buck/distributed/thrift/BuildSlaveEventsRange.java:622-654 | each field's segment has the field's id as its only header when the field is set, and nothing when it is not |
| RangeProtocol.FieldTokensHeaders | src-gen/com/facebook/buck/distributed/thrift/BuildSlaveEventsRange.java:618-655 | the written field headers are exactly the set fields' ids, ascending |
| RangeProtocol.StandardWriteShape | src-gen/com/facebook/buck/distributed/thrift/BuildSlaveEventsRange.java:618-657 | the standard write emits only the set fields, in id order, and ends with STOP |
| RangeStruct.BuildSlaveEventsRange.Value | src-gen/com/facebook/buck/distributed/thrift/BuildSlaveEventsRange.java:166-168 | the value view's success presence is bit 0 of the is-set bitfield |
| RangeStruct.BuildSlaveEventsRange.constructor | src-gen/com/facebook/buck/distributed/thrift/BuildSlaveEventsRange.java:114-115 | a new struct has no field set and success false |
| RangeStruct.BuildSlaveEventsRange.Copy | src-gen/com/facebook/buck/distributed/thrift/BuildSlaveEventsRange.java:120-136 | the copy has the same bitfield and values as its original, and so equals it |
| RangeStruct.BuildSlaveEventsRange.DeepCopy | src-gen/com/facebook/buck/distributed/thrift/BuildSlaveEventsRange.java:138-141 | a fresh struct equal to this one |
| RangeStruct.BuildSlaveEventsRange.Clear | src-gen/com/facebook/buck/distributed/thrift/BuildSlaveEventsRange.java:143-149 | no field is set and success is false; the other bitfield bits are kept |
| RangeStruct.BuildSlaveEventsRange.SetSuccess | src-gen/com/facebook/buck/distributed/thrift/BuildSlaveEventsRange.java:155-159 | success becomes b and is set; the other bits and the other fields are unchanged |
| RangeStruct.BuildSlaveEventsRange.UnsetSuccess | src-gen/com/facebook/buck/distributed/thrift/BuildSlaveEventsRange.java:161-163 | clears only the success bit; the stored value and the other fields stay, and the struct equals the old one with success unset |
| RangeStruct.BuildSlaveEventsRange.SetSuccessIsSet | src-gen/com/facebook/buck/distributed/thrift/BuildSlaveEventsRange.java:170-172 | the success bit becomes the argument, and nothing else changes |
| RangeStruct.BuildSlaveEventsRange.SetErrorMessage | src-gen/com/facebook/buck/distributed/thrift/BuildSlaveEventsRange.java:178-190 | replaces errorMessage only; it is set iff the new value is non-null |
| RangeStruct.BuildSlaveEventsRange.UnsetErrorMessage | src-gen/com/facebook/buck/distributed/thrift/BuildSlaveEventsRange.java:183-185 | errorMessage becomes unset; nothing else changes |
| RangeStruct.BuildSlaveEventsRange.SetErrorMessageIsSet | src-gen/com/facebook/buck/distributed/thrift/BuildSlaveEventsRange.java:192-196 | false unsets errorMessage; true changes nothing |
| RangeStruct.BuildSlaveEventsRange.SetQuery | src-gen/com/facebook/buck/distributed/thrift/BuildSlaveEventsRange.java:202-214 | replaces query only; it is set iff the new value is non-null |
| RangeStruct.BuildSlaveEventsRange.UnsetQuery | src-gen/com/facebook/buck/distributed/thrift/BuildSlaveEventsRange.java:207-209 | query becomes unset; nothing else changes |
| RangeStruct.BuildSlaveEventsRange.SetQueryIsSet | src-gen/com/facebook/buck/distributed/thrift/BuildSlaveEventsRange.java:216-220 | false unsets query; true changes nothing |
| RangeStruct.BuildSlaveEventsRange.GetEventsSize | src-gen/com/facebook/buck/distributed/thrift/BuildSlaveEventsRange.java:222-224 | 0 when events is unset, the list's length otherwise |
| RangeStruct.BuildSlaveEventsRange.AddToEvents | src-gen/com/facebook/buck/distributed/thrift/BuildSlaveEventsRange.java:230-235 | appends e after the old elements, starting from an empty list when events was unset; the size grows by one and the other fields are unchanged |
| RangeStruct.BuildSlaveEventsRange.SetEvents | src-gen/com/facebook/buck/distributed/thrift/BuildSlaveEventsRange.java:241-253 | replaces events only; it is set iff the new value is non-null |
| RangeStruct.BuildSlaveEventsRange.UnsetEvents | src-gen/com/facebook/buck/distributed/thrift/BuildSlaveEventsRange.java:246-248 | events becomes unset; nothing else changes |
| RangeStruct.BuildSlaveEventsRange.SetEventsIsSet | src-gen/com/facebook/buck/distributed/thrift/BuildSlaveEventsRange.java:255-259 | false unsets events; true changes nothing |
| RangeStruct.BuildSlaveEventsRange.IsSetField | src-gen/com/facebook/buck/distributed/thrift/BuildSlaveEventsRange.java:317-334 | the presence of the named field |
| RangeStruct.BuildSlaveEventsRange.IsSetSuccess | src-gen/com/facebook/buck/distributed/thrift/BuildSlaveEventsRange.java:166-168 | bit 0 of the is-set bitfield; SetSuccess, UnsetSuccess and SetSuccessIsSet state how it changes |
| RangeStruct.BuildSlaveEventsRange.IsSetErrorMessage | src-gen/com/facebook/buck/distributed/thrift/BuildSlaveEventsRange.java:188-190 | errorMessage is non-null; SetErrorMessage and UnsetErrorMessage state how it changes |
| RangeStruct.BuildSlaveEventsRange.IsSetQuery | src-gen/com/facebook/buck/distributed/thrift/BuildSlaveEventsRange.java:212-214 | query is non-null; SetQuery and UnsetQuery state how it changes |
| RangeStruct.BuildSlaveEventsRange.IsSetEvents | src-gen/com/facebook/buck/distributed/thrift/BuildSlaveEventsRange.java:251-253 | events is non-null; SetEvents, UnsetEvents and AddToEvents state how it changes |
| RangeStruct.BuildSlaveEventsRange.EqualsStruct | src-gen/com/facebook/buck/distributed/thrift/BuildSlaveEventsRange.java:353-387 | false for null; otherwise true iff the two structs have the same normal form |
| RangeStruct.BuildSlaveEventsRange.CompareToStruct | src-gen/com/facebook/buck/distributed/thrift/BuildSlaveEventsRange.java:413-461 | the field-by-field comparison, which is zero iff the structs are equal |
| RangeStruct.BuildSlaveEventsRange.ValidateStruct | src-gen/com/facebook/buck/distributed/thrift/BuildSlaveEventsRange.java:519-525 | validation succeeds iff an absent query, or a present valid one |
| RangeStruct.BuildSlaveEventsRange.WriteStandard | src-gen/com/facebook/buck/distributed/thrift/BuildSlaveEventsRange.java:618-657 | emits the standard encoding of the struct, or fails when the query is invalid |
| RangeStruct.BuildSlaveEventsRange.ReadStandard | src-gen/com/facebook/buck/distributed/thrift/BuildSlaveEventsRange.java:553-616 | on success the struct holds what the standard read decodes over its old contents; otherwise it reports that read's error |
| RangeStruct.BuildSlaveEventsRange.ReadStandardField | src-gen/com/facebook/buck/distributed/thrift/BuildSlaveEventsRange.java:562-607 | after one field header: a known id with its own wire type is decoded into the struct, anything else is skipped, and reading on from the returned tokens gives what the standard read gives from that header; a failure is that read's error |
| RangeStruct.BuildSlaveEventsRange.WriteTuple | src-gen/com/facebook/buck/distributed/thrift/BuildSlaveEventsRange.java:670-704 | emits the tuple encoding of the struct |
| RangeStruct.BuildSlaveEventsRange.ReadTuple | src-gen/com/facebook/buck/distributed/thrift/BuildSlaveEventsRange.java:707-737 | on success the struct holds what the tuple read decodes over its old contents; otherwise it reports that read's error |
| RangeStruct.BuildSlaveEventsRange.ReadTupleEvents | src-gen/com/facebook/buck/distributed/thrift/BuildSlaveEventsRange.java:723-736 | the events step of the tuple read, from a position in the stream |
| RangeStruct.WriteEventList | src-gen/com/facebook/buck/distributed/thrift/BuildSlaveEventsRange.java:645-650 | the loop emits one nested struct per element, in order |
| RangeStruct.ReadEventList | src-gen/com/facebook/buck/distributed/thrift/BuildSlaveEventsRange.java:591-599 | the loop reads n nested structs in order, and fails as the list reader does |
| BuildRules.BuildTarget.WithAppendedFlavors | src/com/facebook/buck/python/CxxPythonExtensionDescription.java:466-470 | the same target with the extra flavors added to its flavor set |
| BuildRules.Resolve | src/com/facebook/buck/features/go/CGoGenSource.java:85 | joins a name under a directory with one separator |
| BuildRules.ResolveInjective | src/com/facebook/buck/features/go/CGoGenSource.java:84-93 | different names under one directory give different paths |
| BuildRules.BuildableContext.RecordArtifact | src/com/facebook/buck/features/go/CGoGenSource.java:129 | appends the path to the recorded artifacts |
| BuildRules.MinRule | src/com/facebook/buck/python/CxxPythonExtensionDescription.java:570 | a least element of a non-empty set of rules |
| BuildRules.SortedRules | src/com/facebook/buck/python/CxxPythonExtensionDescription.java:570 | a strictly ascending list holding exactly the elements of the set, each once |
| BuildRules.PrependLeast | src/com/facebook/buck/python/CxxPythonExtensionDescription.java:570 | the least rule of a set in front of the ascending list of the others is still strictly ascending |
| CGoGen.LastIndexOf | src/com/facebook/buck/features/go/CGoGenSource.java:81 | -1 iff the character is absent; otherwise a position holding it after which it does not occur |
| CGoGen.ReplaceChar | src/com/facebook/buck/features/go/CGoGenSource.java:81 | same length; each occurrence is replaced and every other character is kept |
| CGoGen.Stem | src/com/facebook/buck/features/go/CGoGenSource.java:81 | none iff the path has no '.'; otherwise as long as the part before the last '.', and without a separator |
| CGoGen.StemOfExtended | src/com/facebook/buck/features/go/CGoGenSource.java:81 | the stem of base.ext, where ext has no dot, is base with its separators turned into '_' |
| CGoGen.StemsCanCollide | src/com/facebook/buck/features/go/CGoGenSource.java:81 | "a/b.go" and "a_b.go" both have stem "a_b" |
| CGoGen.Stems | src/com/facebook/buck/features/go/CGoGenSource.java:75-81 | one stem per source, in order |
| CGoGen.GenFile | src/com/facebook/buck/features/go/CGoGenSource.java:84-93 | a file of the target rule at genDir resolved with the name; StemFileDirectlyUnder shows it lies directly under genDir |
| CGoGen.PerStemFiles | src/com/facebook/buck/features/go/CGoGenSource.java:75-88 | one file per stem with the suffix, in order; FileListsShape gives its contents |
| CGoGen.GoFilesOf | src/com/facebook/buck/features/go/CGoGenSource.java:84-93 | the .cgo1.go files, then _cgo_gotypes.go; FileListsShape and GeneratedFilesFlat give its meaning |
| CGoGen.CFilesOf | src/com/facebook/buck/features/go/CGoGenSource.java:86-90 | the .cgo2.c files, then _cgo_export.c; FileListsShape and ExportHeaderIsNotGenerated give its meaning |
| CGoGen.CgoFilesOf | src/com/facebook/buck/features/go/CGoGenSource.java:91 | _cgo_main.c alone; FileListsShape gives its meaning |
| CGoGen.FileListsShape | src/com/facebook/buck/features/go/CGoGenSource.java:75-97 | goFiles and cFiles have one entry per source in order (stem.cgo1.go, stem.cgo2.c), then _cgo_gotypes.go and _cgo_export.c |
| CGoGen.StemFileDirectlyUnder | src/com/facebook/buck/features/go/CGoGenSource.java:84-87 | a separator-free name lies directly under genDir |
| CGoGen.GeneratedFilesFlat | src/com/facebook/buck/features/go/CGoGenSource.java:75-97 | every generated file lies directly under genDir |
| CGoGen.ExportHeaderIsNotGenerated | src/com/facebook/buck/features/go/CGoGenSource.java:155-157 | the export header is in none of the three lists |
| CGoGen.NotExportHeader | src/com/facebook/buck/features/go/CGoGenSource.java:155-157 | a generated file whose name does not end in `h` differs from the export header |
| CGoGen.CGoGenSource.constructor | src/com/facebook/buck/features/go/CGoGenSource.java:55-104 | the loop over the sources derives the three lists, and the build deps are the sorted union of the tool deps and the sources' rule inputs |
| CGoGen.CGoGenSource.GetCFiles | src/com/facebook/buck/features/go/CGoGenSource.java:86-95 | one stem.cgo2.c per source in order, then _cgo_export.c; length is the number of sources + 1 |
| CGoGen.CGoGenSource.GetCgoFiles | src/com/facebook/buck/features/go/CGoGenSource.java:91-96 | exactly [genDir/_cgo_main.c], whatever the sources |
| CGoGen.CGoGenSource.GetGoFiles | src/com/facebook/buck/features/go/CGoGenSource.java:84-97 | one stem.cgo1.go per source in order, then _cgo_gotypes.go; length is the number of sources + 1 |
| CGoGen.CGoGenSource.GetBuildDeps | src/com/facebook/buck/features/go/CGoGenSource.java:99-103 | strictly ascending, and holding each tool dep and source rule input exactly once |
| CGoGen.CGoGenSource.GetSourcePathToOutput | src/com/facebook/buck/features/go/CGoGenSource.java:138-141 | a path owned by the target under which every file of the three lists and the export header lies directly |
| CGoGen.CGoGenSource.GetExportHeader | src/com/facebook/buck/features/go/CGoGenSource.java:155-157 | genDir/_cgo_export.h, directly under genDir and in none of the lists |
| CGoGen.CGoGenSource.GetBuildSteps | src/com/facebook/buck/features/go/CGoGenSource.java:106-131 | the clean-directory steps for genDir, then one compile step run in the absolute package directory over the sources' absolute paths into the absolute genDir; the relative genDir is recorded as the artifact |
| SwiftConfig.BuckConfig.GetValue | src/com/facebook/buck/swift/SwiftBuckConfig.java:42 | present iff the (section, key) pair is stored, and then the stored value |
| SwiftConfig.BuckConfig.GetBooleanValue | src/com/facebook/buck/swift/SwiftBuckConfig.java:55 | the default when the key is absent; otherwise the parse of the stored value |
| SwiftConfig.TrimStartIndex | src/com/facebook/buck/swift/SwiftBuckConfig.java:43 | the first kept index at or after the start: everything skipped is a control char or space, and the character there, if any, is kept |
| SwiftConfig.TrimEndIndex | src/com/facebook/buck/swift/SwiftBuckConfig.java:43 | the end of the kept range, never below the start: everything cut off is a control char or space, and the last kept character is neither |
| SwiftConfig.Trim | src/com/facebook/buck/swift/SwiftBuckConfig.java:43 | an infix whose removed ends are all control chars or spaces, and which neither starts nor ends with one |
| SwiftConfig.TrimIdempotent | src/com/facebook/buck/swift/SwiftBuckConfig.java:43 | trimming twice is trimming once |
| SwiftConfig.IndexOfSpace | src/com/facebook/buck/swift/SwiftBuckConfig.java:43 | the position of the first space |
| SwiftConfig.SplitOnSpace | src/com/facebook/buck/swift/SwiftBuckConfig.java:43 | at least one piece, and no piece contains a space |
| SwiftConfig.CountSpacesAppend | src/com/facebook/buck/swift/SwiftBuckConfig.java:43 | the count of spaces adds over concatenation |
| SwiftConfig.CountSpacesNone | src/com/facebook/buck/swift/SwiftBuckConfig.java:43 | a space-free string has no spaces to count |
| SwiftConfig.JoinSplit | src/com/facebook/buck/swift/SwiftBuckConfig.java:43 | joining the pieces with a single space gives back the split string |
| SwiftConfig.SplitCount | src/com/facebook/buck/swift/SwiftBuckConfig.java:43 | the number of pieces is the number of spaces + 1, so empty pieces are kept |
| SwiftConfig.SplitJoin | src/com/facebook/buck/swift/SwiftBuckConfig.java:43 | space-free pieces joined with single spaces split back into the same pieces |
| SwiftConfig.FirstSpaceAfter | src/com/facebook/buck/swift/SwiftBuckConfig.java:43 | in a space-free piece, a space and a tail, the first space is right after the piece, so the split takes the piece off and leaves the tail |
| SwiftConfig.SwiftBuckConfig.GetFlags | src/com/facebook/buck/swift/SwiftBuckConfig.java:41-44 | absent iff the key is; otherwise space-free pieces that join back to the trimmed value, one more than its spaces |
| SwiftConfig.SwiftBuckConfig.GetCompilerFlags | src/com/facebook/buck/swift/SwiftBuckConfig.java:46-48 | the flags under swift.compiler_flags, absent iff that key is |
| SwiftConfig.SwiftBuckConfig.GetVersion | src/com/facebook/buck/swift/SwiftBuckConfig.java:50-52 | the raw, untrimmed swift.version value, absent iff the key is |
| SwiftConfig.SwiftBuckConfig.GetCompileForceCache | src/com/facebook/buck/swift/SwiftBuckConfig.java:54-56 | false when swift.compile_force_cache is absent, its parse otherwise |
| SwiftConfig.SwiftBuckConfig.GetUseFileList | src/com/facebook/buck/swift/SwiftBuckConfig.java:58-60 | false when swift.use_filelist is absent, its parse otherwise |
| SwiftConfig.SwiftBuckConfig.GetUseModulewrap | src/com/facebook/buck/swift/SwiftBuckConfig.java:62-64 | false when swift.use_modulewrap is absent, its parse otherwise |
| SwiftConfig.SwiftBuckConfig.GetProjectEmbedRuntime | src/com/facebook/buck/swift/SwiftBuckConfig.java:70-72 | true when swift.project_embed_runtime is absent, its parse otherwise |
| SwiftConfig.SwiftBuckConfig.GetProjectWMO | src/com/facebook/buck/swift/SwiftBuckConfig.java:75-77 | false when swift.project_wmo is absent, its parse otherwise |
| SwiftConfig.SwiftBuckConfig.GetProjectAddASTPaths | src/com/facebook/buck/swift/SwiftBuckConfig.java:83-85 | false when swift.project_add_ast_paths is absent, its parse otherwise |
| SwiftConfig.OnlySwiftSectionMatters | src/com/facebook/buck/swift/SwiftBuckConfig.java:41-85 | every getter reads only the swift section |
| CxxPythonExtension.ExtensionName | src/com/facebook/buck/python/CxxPythonExtensionDescription.java:145-148 | the module name followed by ".so" |
| CxxPythonExtension.ExtensionNameInjective | src/com/facebook/buck/python/CxxPythonExtensionDescription.java:145-148 | different modules get different extension names |
| CxxPythonExtension.ModuleName | src/com/facebook/buck/python/CxxPythonExtensionDescription.java:331 | the module_name argument when given, else the target's short name |
| CxxPythonExtension.ModulePath | src/com/facebook/buck/python/CxxPythonExtensionDescription.java:454-456 | the extension name of the module name, resolved under the base module |
| CxxPythonExtension.TypeFlavor | src/com/facebook/buck/python/CxxPythonExtensionDescription.java:98-113 | EXTENSION has the shared-library flavor |
| CxxPythonExtension.TypeFlavorInjective | src/com/facebook/buck/python/CxxPythonExtensionDescription.java:98-101 | distinct types have distinct flavors |
| CxxPythonExtension.FlavorDomain.Flavors | src/com/facebook/buck/python/CxxPythonExtensionDescription.java:115-116 | exactly the flavors of the domain's entries |
| CxxPythonExtension.FlavorDomain.GetValue | src/com/facebook/buck/python/CxxPythonExtensionDescription.java:416 | fails iff the target has several of the domain's flavors; none iff it has none; otherwise the value of the flavor it has |
| CxxPythonExtension.FlavorDomain.GetRequiredValue | src/com/facebook/buck/python/CxxPythonExtensionDescription.java:428-438 | succeeds iff the target has exactly one of the domain's flavors, and then gives the value of an entry whose flavor the target has; it reports a missing flavor and several flavors as distinct errors |
| CxxPythonExtension.FirstMatchIndex | src/com/facebook/buck/python/CxxPythonExtensionDescription.java:416 | the first entry whose flavor the target has, if there is one |
| CxxPythonExtension.LibraryTypeOfFlavor | src/com/facebook/buck/python/CxxPythonExtensionDescription.java:115-116 | a target with exactly one type flavor asks for that type |
| CxxPythonExtension.TypeFlavorOfValue | src/com/facebook/buck/python/CxxPythonExtensionDescription.java:115-116 | the type the lookup finds is the one whose flavor the target carries, and the target carries no other type flavor |
| CxxPythonExtension.Dispatch | src/com/facebook/buck/python/CxxPythonExtensionDescription.java:416-456 | the placeholder iff no type flavor, at the module path; each type flavor reaches its own builder with the required values of its platforms once they resolve; a failed Python lookup (checked first) or C/C++ lookup passes on its own error; several type flavors fail |
| CxxPythonExtension.AddAll | src/com/facebook/buck/python/CxxPythonExtensionDescription.java:302-318 | adding to the set builder keeps what it already held, as a prefix |
| CxxPythonExtension.AddAllSpec | src/com/facebook/buck/python/CxxPythonExtensionDescription.java:302-318 | the builder stays duplicate-free and holds exactly the old and the added elements |
| CxxPythonExtension.AddAllConcat | src/com/facebook/buck/python/CxxPythonExtensionDescription.java:302-317 | adding one list and then another builds the same set as adding their concatenation |
| CxxPythonExtension.BuilderAddAll | src/com/facebook/buck/python/CxxPythonExtensionDescription.java:305 | the builder's element-by-element loop computes AddAll |
| CxxPythonExtension.MatchingTargets | src/com/facebook/buck/python/CxxPythonExtensionDescription.java:308-311 | exactly the targets of the entries whose pattern matches the platform flavor |
| CxxPythonExtension.PlatformSpecificRules | src/com/facebook/buck/python/CxxPythonExtensionDescription.java:307-310 | holds the rule of every matching target, and only such rules |
| CxxPythonExtension.LibraryRules | src/com/facebook/buck/python/CxxPythonExtensionDescription.java:313-315 | holds exactly the Python platform's C/C++ library rule when it declares one, and nothing otherwise |
| CxxPythonExtension.GetPlatformDeps | src/com/facebook/buck/python/CxxPythonExtensionDescription.java:296-319 | duplicate-free, and a rule is in the result iff it is a declared dep, the rule of a platform-specific target, or the Python C/C++ library's rule when declared |
| CxxPythonExtension.PlatformDepsContents | src/com/facebook/buck/python/CxxPythonExtensionDescription.java:296-319 | the set built from the added rules is duplicate-free and holds exactly the declared deps, the platform-specific targets' rules and the Python C/C++ library's rule when declared |
| CxxPythonExtension.ExtensionTarget | src/com/facebook/buck/python/CxxPythonExtensionDescription.java:464-470 | the placeholder's target with the Python flavor, the C/C++ flavor and the shared flavor added |
| CxxPythonExtension.CxxPythonExtensionPlaceholder.constructor | src/com/facebook/buck/python/CxxPythonExtensionDescription.java:457-459 | a placeholder for the target and module with nothing recorded yet |
| CxxPythonExtension.CxxPythonExtensionPlaceholder.GetModule | src/com/facebook/buck/python/CxxPythonExtensionDescription.java:482-485 | the module path fixed at creation |
| CxxPythonExtension.CxxPythonExtensionPlaceholder.GetExtension | src/com/facebook/buck/python/CxxPythonExtensionDescription.java:461-480 | requires the shared rule for the two platforms and records it; the recorded set only grows |
| CxxPythonExtension.CxxPythonExtensionPlaceholder.GetImplicitDepsForCaching | src/com/facebook/buck/python/CxxPythonExtensionDescription.java:568-571 | a strictly sorted snapshot holding exactly the recorded extensions, each once |
| CxxPythonExtension.CxxPythonExtensionPlaceholder.GetPythonPackageComponents | src/com/facebook/buck/python/CxxPythonExtensionDescription.java:498-509 | one module entry, from the module path to the extension's output; the other two maps and the multimap are empty; not zip-safe; the extension is recorded |
| CxxPythonExtension.CreateBuildRule | src/com/facebook/buck/python/CxxPythonExtensionDescription.java:405-457 | the builder the dispatch picks, applied to the resolved platforms, or a fresh placeholder at the module path with nothing recorded; lookup errors are passed on |

## Left out

- `hashCode`, `toString`, `metaDataMap`, `fieldForId`, `setFieldValue`/`getFieldValue`, `_Fields.findByName` and the Java serialization hooks `writeObject`/`readObject` are not modelled. They are hashing, formatting, reflection and Java I/O, with no property beyond consistency with `equals`.
- Thrift wire bytes. Both schemes work on an abstract token stream. Each data-carrying protocol call (a field header, STOP, a list header, a scalar value, the tuple scheme's bit set) is one token. The begin and end markers (`readStructBegin`/`End`, `readFieldEnd`, `readListEnd` and their `write` counterparts) have no token. A nested `BuildSlaveEventsQuery` or `SequencedBuildSlaveEvent`, and any other struct, map or set value a skip passes over, is one opaque token, with an integer key standing for a nested struct's content. Their own `read`, `write` and `validate` are not part of this model. The validity of a query is the input `queryValid`.
- `RangeValues.CompareTo`: only the sign of `compareTo` is modelled (-1, 0, 1), not the magnitude Java returns. The class-name comparison for an argument of another class arises only for a subclass, since the class is not final; the model has no subclasses, so it does not model that comparison.
- `RangeValues.CompareStrings`: it orders by Dafny `char` code points. Java's `String.compareTo` orders by UTF-16 code units, and the two differ only above the Basic Multilingual Plane.
- The list comparison (`TBaseHelper.compareTo` on lists: shorter first, then element by element) and the behaviour of `readListBegin` and of `new ArrayList(n)` on a negative size (both throw) come from the Thrift library and the JDK. Neither is among the files modelled.
- List sizes are unbounded integers, not 32-bit. Lists are values, so aliasing between a struct's `events` list and a caller's list is not modelled.
- `RangeStruct.BuildSlaveEventsRange.ReadStandard`: the struct's contents after a failed read are unspecified. Java leaves partially read fields, and a half-read nested query cannot be represented when the query is a single token.
- `RangeStruct.BuildSlaveEventsRange.ReadTuple`: likewise, the struct's contents after a failed tuple read are unspecified, for the same reasons.
- `BuckConfig.getBooleanValue`'s string parsing is the abstract function `parseBoolean`.
- The file system comes in as inputs:
  - the path relative to the package is `relativePath`;
  - `getGenPath` is `genDir`;
  - the resolver's absolute path is `absolutePath`;
  - `ProjectFilesystem.getPathForRelativePath` is `projectPath`.

  The separator is fixed to `/`. The sources are a sequence in the set's iteration order, and `CGoGen.CGoGenSource.constructor` requires them to be distinct, as an `ImmutableSet` is. `CGoGen.CGoGenSource.constructor` requires every relative path to contain a `.`. The source throws from `substring(0, -1)` on a path without one, and `CGoGen.Stem` models that case as `None`.
- `MakeCleanDirectoryStep.of` is modelled as a number of clean steps over `genDir`. The compile step's tool environment, command prefix and platform are not modelled. Its working directory and output directory are the file system's absolute paths of the package and of `genDir`, given by the input `projectPath`. The tool's deps and the sources' rule inputs are input sets.
- `CxxPythonExtension.GetPlatformDeps`: the platform-specific rules are added in the order of the matching targets. `BuildRuleResolver.getAllRules` is not part of this model; if it returns the rules in another order (a sorted set, say), only the order of the result differs. The membership clauses do not depend on it.
- `PythonUtil.getBasePath`, `requireRule`, `getRule` and the rule's output path are abstract functions. `Path.resolve` is the string join `BuildRules.Resolve`.
- The three rule builders (`createSandboxTreeBuildRule`, `createExtensionBuildRule`, `createCompilationDatabase`) are abstract functions. So are the rule construction behind them (`requireCxxObjects`, `getExtensionArgs`, `getExtensionPath`) and `getExtensionTarget`'s shared-library target: thin wrappers over the C/C++ toolchain.
- The placeholder's `getPythonPackageDeps`, `getNativeLinkTarget` and `getRuntimeDeps`, and the description's `flavorDomains`, `findDepsForTargetFromConstructorArgs` and platform getters, are not modelled. They are queries over toolchain objects that are not part of this model.
- `FlavorDomain.getValue` and `getRequiredValue` come from a library class. The model assumes the library's behaviour: several matching flavors throw, and for the required value no match throws too.
- The concurrent set of the placeholder is a plain set. Concurrency is not modelled.
- A rule's natural order is the order of an integer `id` standing for its build target.
- `AbstractCommandRunnerParams` and `FakeBuildRuleWithProviders` are plumbing and a test fake, with nothing to state.
