# blpapi-python, modelled in Dafny

This project models the core of the Bloomberg API Python binding (`blpapi`)
and proves properties of the model. The core is:

- **The C glue in `src/blpapi/ffi_utils.c`.**
  - It decodes an engine element tree into Python values (`blpapi_Element_toPy`, `complexElementToPy`, `arrayElementToPy`, `getScalarValue`).
  - It keeps Python objects alive while the engine holds them through managed pointers (`managerFunc`, `setmptr`, `is_known_obj`).
- **The Python layers above it.** The model covers:
  - date/time conversion, in both the current and the legacy version;
  - element reading and `fromPy` formatting;
  - the event formatter and the test message formatter;
  - subscription strings;
  - exception classification;
  - name pairs;
  - ctypes helpers and handles;
  - session options;
  - the logging callback.
- **The example utilities.** These are the host/auth option parsers, the request-option defaults and the session event router.

The engine behind the C API is not modelled as code. An element is a
datatype holding what the engine's accessors would report: data type,
flags, sub-elements and values. A failed accessor is a value that cannot
be read. Where the engine is called, it is a parameter of the model:
- the codes it returns;
- the text of its last error;
- the clock (`now`, `today`).

Each source file is one module:

| module | source |
|---|---|
| `ElementDecode`, `BlpElement`, `DecodeOwnership`, `LifetimeBridge` | `src/blpapi/ffi_utils.c` |
| `DatetimeUtil`, `PyDatetime` | `src/blpapi/datetime.py` (with Python's `datetime` semantics) |
| `LegacyDatetimeUtil` | `blpapi/datetime.py` |
| `PyElement`, `ElementFromPy` | `src/blpapi/element.py` |
| `EventFormatter` | `src/blpapi/eventformatter.py` |
| `MessageFormatter` | `src/blpapi/test/messageformatter.py` |
| `SubscriptionList` | `src/blpapi/subscriptionlist.py` |
| `Exceptions` | `src/blpapi/exception.py` |
| `Utils` | `src/blpapi/utils.py` |
| `Names` | `src/blpapi/name.py` |
| `CtypesUtils` | `src/blpapi/ctypesutils.py` |
| `Handles` | `src/blpapi/chandle.py`, `src/blpapi/auth.py` |
| `SessionOptions` | `src/blpapi/sessionoptions.py` |
| `Logging` | `src/blpapi/logging.py` |
| `SessionRouter` | `examples/demoapps/util/events/SessionRouter.py` |
| `ConnectionAndAuthOptions` | `examples/demoapps/util/ConnectionAndAuthOptions.py` |
| `RequestOptions` | `examples/demoapps/util/RequestOptions.py` |
| `AppConfig` | `examples/mock-test-examples/market-data-notifier/src/appconfig.py` |
| `PyValues`, `Text`, `Wrappers` | Python values and dictionaries, `str` split/join/int, Option/Result |

Code that updates state in place is modelled as classes with those fields:
- the reference-count ledger;
- the managed-pointer bridge;
- handles and auth options;
- the logger;
- the event router;
- the argument parser's namespace;
- the iterators;
- the event formatter.

Code that only computes is modelled as functions. Each is paired with lemmas about it.

## Model

| member | source | states |
|---|---|---|
| ElementDecode.ScalarValue | src/blpapi/ffi_utils.c:19-168 | The scalar dispatch by data type. For each scalar kind the result is exactly the value read by the accessor that the type selects: bool for BOOL, the 64-bit int accessor for byte/int32/int64 (so within int64), float64 for the floats, string for char/string/enumeration, the bytes for a byte array. The call fails iff that accessor fails, with "Internal error getting <kind>". A date/time is "Internal error getting datetime" when unreadable, else the date/time conversion of what was read. Sequence, choice and any other type give "Internal datatype error". A conversion error can only come from the date/time branch |
| ElementDecode.DatetimeScalar | src/blpapi/ffi_utils.c:145-160 | A date/time whose `parts` is 0 decodes to None. Otherwise the result is exactly what `toPyTimeFromInts(parts, offset, year, month, day, hours, minutes, seconds, micros)` returns, and its exception becomes the decode error. A value read back has the shape the date and time bits select and carries the fields read. Its microseconds are milliSeconds*1000 + picoseconds/1000000, exact when the picoseconds are whole microseconds |
| ElementDecode.DecodePrecedence | src/blpapi/ffi_utils.c:269-282 | Complex first (a mapping), then array (a list of exactly numValues items), then null (None), then the scalar at index 0 |
| ElementDecode.ComplexPrefixOk | src/blpapi/ffi_utils.c:180-198 | The loop over sub-elements succeeds iff every sub-element is readable and decodes |
| ElementDecode.DecodedPairs | src/blpapi/ffi_utils.c:180-198 | The (name, decoded value) pairs visited, one per sub-element, in index order |
| ElementDecode.ComplexPrefixIsDict | src/blpapi/ffi_utils.c:180-198 | A successful loop builds exactly the dict made by inserting the visited pairs in order |
| ElementDecode.ComplexDecodeIsDict | src/blpapi/ffi_utils.c:172-199 | A decodable complex element decodes to the mapping of its pairs inserted in index order |
| ElementDecode.ComplexDecodeEntries | src/blpapi/ffi_utils.c:172-199 | The decoded mapping has unique keys; a key is present iff some sub-element has that name; a sub-element's value is the one kept when no later sub-element repeats its name, so the last value of a repeated name wins |
| ElementDecode.ComplexPrefixStep | src/blpapi/ffi_utils.c:180-198 | One iteration: an unreadable sub-element fails with "Internal error in `Element.toPy`"; a failing decode propagates its error; otherwise the dict gets the name set to the decoded value |
| ElementDecode.ComplexPrefixFirstError | src/blpapi/ffi_utils.c:183-209 | When sub-elements before k decode and k fails, the whole conversion fails with k's error. No partial dict is returned |
| ElementDecode.ComplexPrefixErrSticky | src/blpapi/ffi_utils.c:186-209 | Once the loop has failed, later sub-elements do not change the result |
| ElementDecode.ArrayPrefixItems | src/blpapi/ffi_utils.c:228-254 | The array loop succeeds iff every slot converts. The list then has exactly n items, and item i is slot i: a decoded sub-element when the schema type is complex, else the scalar at i |
| ElementDecode.ArrayPrefixFirstError | src/blpapi/ffi_utils.c:231-266 | The first failing slot's error is the array's error. No partial list is returned |
| ElementDecode.ArrayPrefixErrSticky | src/blpapi/ffi_utils.c:235-266 | Once the array loop has failed, later slots do not change the result |
| ElementDecode.ElementToPy | src/blpapi/ffi_utils.c:269-282 | The method computes exactly the decode function |
| ElementDecode.ComplexElementToPy | src/blpapi/ffi_utils.c:172-210 | The loop method returns the dict of the decode function's pairs, or its first error |
| ElementDecode.ArrayElementToPy | src/blpapi/ffi_utils.c:212-267 | The loop method returns the list of the decoded slots, or the first failing slot's error |
| ElementDecode.ScalarArrayToPy | src/blpapi/ffi_utils.c:245-253 | The loop over a non-complex array stores `getScalarValue` of each slot in order. It stops at the first slot that fails, with that slot's error |
| BlpElement.GetValueAsInt64 | src/blpapi/ffi_utils.c:35-47 | What the 64-bit integer accessor reports always lies within int64 |
| BlpElement.GetElement | src/blpapi/element.py:660-668 | `getElement` with a name: a sub-element is found iff the element has a readable one with that name (`hasElement`). The one found carries the name, is smaller than its parent, and no readable sub-element before it carries the name |
| BlpElement.FirstNamed | src/blpapi/element.py:640-668 | The by-name lookup from an index on: found iff some readable sub-element at or after it carries the name, and then it is the first such one |
| DecodeOwnership.RefLedger.New | src/blpapi/ffi_utils.c:173-214 | A new object starts with one reference and holds nothing |
| DecodeOwnership.RefLedger.Incref | src/blpapi/ffi_utils.c:194 | Incrementing one object's count changes nothing else |
| DecodeOwnership.RefLedger.Store | src/blpapi/ffi_utils.c:194-252 | Storing an object into a container records it as held, counts unchanged (`PyList_SetItem` steals; the dict's extra reference is a separate incref) |
| DecodeOwnership.RefLedger.Decref | src/blpapi/ffi_utils.c:197-259 | Releasing the last reference frees the object and releases everything it holds; otherwise the count drops by one |
| DecodeOwnership.ReleaseRange | src/blpapi/ffi_utils.c:201-258 | Releasing a container whose items are a range of objects decrements exactly those objects |
| DecodeOwnership.Range | src/blpapi/ffi_utils.c:180-247 | The objects created by the loop, in order |
| DecodeOwnership.FirstFailure | src/blpapi/ffi_utils.c:183-251 | The index of the first failing step: every earlier step converted and this one did not |
| DecodeOwnership.ComplexToPyRefs | src/blpapi/ffi_utils.c:172-210 | The dict loop with its reference traffic (store with an extra reference, release, then the ERROR label). It succeeds iff no step fails. It leaves exactly the counts of `FinalCounts` (sub-element names distinct): as written, a missing sub-element after a conversion leaves the last sub-value at -1; with `subElementPy` reset after its release, it does not |
| DecodeOwnership.StoreInDict | src/blpapi/ffi_utils.c:189-197 | One converted sub-value: the dict takes its own reference and the new one is released, so the new object ends with one reference, held by the dict |
| DecodeOwnership.ArrayToPyRefs | src/blpapi/ffi_utils.c:212-267 | The list loop with its reference traffic (`PyList_SetItem` steals, then the ERROR label). It succeeds iff no step fails. It leaves exactly the counts of `FinalCounts`: as written, a missing value after a conversion leaves the last value at -1; with `pyValue` reset once stored, it does not |
| DecodeOwnership.StoreInList | src/blpapi/ffi_utils.c:237-242 | One converted value: `PyList_SetItem` steals the new reference, so the new object ends with one reference, held by the list |
| DecodeOwnership.ReleaseAtError | src/blpapi/ffi_utils.c:200-259 | The ERROR label releases the container, which frees every stored sub-value, and then the last sub-value variable. If that variable still names a stored object, that object ends at -1 |
| DecodeOwnership.ComplexDoubleReleaseAsWritten | src/blpapi/ffi_utils.c:183-202 | As written: after one sub-element was converted and released, a failing `getElementAt` releases it again, so its count reaches -1 |
| DecodeOwnership.ArrayDoubleReleaseAsWritten | src/blpapi/ffi_utils.c:231-259 | As written: after one value was stored into the list, a failing `getValueAsElement` releases it twice, through the list and through `pyValue`, so its count reaches -1 |
| DecodeOwnership.ResetBalancesCounts | src/blpapi/ffi_utils.c:172-267 | With the reset, and sub-element names distinct, a successful conversion leaves each converted object with exactly one reference (the container's), and a failed one leaves every object freed |
| LifetimeBridge.IncRef | src/blpapi/ffi_utils.c:312 | `Py_XINCREF`: a non-null pointee's count goes up by one; nothing else changes |
| LifetimeBridge.DecRef | src/blpapi/ffi_utils.c:315 | `Py_XDECREF`: a non-null pointee's count goes down by one; nothing else changes |
| LifetimeBridge.Bridge.ManagerFunc | src/blpapi/ffi_utils.c:302-320 | COPY copies the pointer and manager into the destination and increments the pointee; DESTROY decrements the destination's pointee; any other operation changes nothing; the result is always 0 |
| LifetimeBridge.Bridge.SetMptr | src/blpapi/ffi_utils.c:323-327 | The slot's manager becomes `managerFunc`, its pointer is kept, and afterwards `is_known_obj` holds |
| LifetimeBridge.CopyThenDestroyBalanced | src/blpapi/ffi_utils.c:309-316 | A copy followed by a destroy of the same pointer restores every count |
| LifetimeBridge.KnownFollowsCopy | src/blpapi/ffi_utils.c:310-337 | `is_known_obj` holds for a copy iff it holds for the source; it never holds for an empty slot or for a foreign manager |
| LifetimeBridge.RunCounts | src/blpapi/ffi_utils.c:302-320 | After any sequence of copies and destroys, each object's count is its initial count plus the copies made of it minus the destroys of slots pointing to it |
| DatetimeUtil.NewFixedOffset | src/blpapi/datetime.py:44-57 | `FixedOffset(m)` holds a normalised timedelta of exactly m minutes, for negative m as well |
| DatetimeUtil.OffsetInMinutesRoundTrip | src/blpapi/datetime.py:69-74 | `getOffsetInMinutes` (days*1440 + seconds//60) gives back the m the offset was built from, for every m, negative m included |
| DatetimeUtil.FixedOffsetOrder | src/blpapi/datetime.py:76-90 | `==`, `<` and `<=` of two fixed offsets are those of their minute counts, and equal offsets hash equally |
| DatetimeUtil.TzFromParts | src/blpapi/datetime.py:118-122 | A tzinfo is attached iff the OFFSET part bit is set, and it is the fixed offset of the stored minutes |
| DatetimeUtil.ToPyTimeFromInts | src/blpapi/datetime.py:101-147 | Date and any time bit give a datetime with the tz; a date alone gives a date, with the offset dropped; a time alone gives a time with the tz; neither gives `now` (the parameter standing for `datetime.now()`). Invalid fields give Python's ValueError |
| DatetimeUtil.ConvertToNativeTypeHelper | src/blpapi/datetime.py:211-253 | Neither date nor time raises ValueError. Success is a date, time or datetime shaped by the two flags, carrying the struct's fields and the given microseconds, and valid. When a date or time is present, it succeeds iff the present fields are valid (a calendar date; hour, minute, second and microsecond in range). Any other failure is ValueError |
| DatetimeUtil.ConvertToNative | src/blpapi/datetime.py:150-182 | A non-high-precision object raises ValueError. Otherwise the result is shaped by the DATE bits and by any TIMEFRACSECONDS bit, with microseconds milliSeconds*1000 + picoseconds//10^6 when FRACSECONDS is set and 0 otherwise. Neither date nor time raises ValueError. Otherwise it succeeds iff the present fields are valid |
| DatetimeUtil.ConvertToNativeNotHighPrecision | src/blpapi/datetime.py:185-208 | The result is shaped by the DATE bits and by all TIME bits. Its microseconds are milliSeconds*1000 when MILLISECONDS is set, so they are always whole milliseconds. Neither date nor time raises ValueError. Otherwise it succeeds iff the present fields are valid |
| DatetimeUtil.SubMilliPicos | src/blpapi/datetime.py:274-277 | The picoseconds split off a microsecond count are below 10^9 (within the struct's range) |
| DatetimeUtil.ToBlpapiCarries | src/blpapi/datetime.py:261-306 | A non-date/time value raises TypeError. A date sets only DATE. A time or datetime fails iff its utcoffset fails. Success carries every field, with microsecond split by divmod into milliSeconds and picoseconds. It sets OFFSET with the floor minutes iff utcoffset is not None |
| DatetimeUtil.ConvertToBlpapi | src/blpapi/datetime.py:261-306 | The method builds exactly the struct the specification function `ToBlpapi` describes |
| DatetimeUtil.SubSecondSplit | src/blpapi/datetime.py:171-277 | The divmod split reads back exactly: milliSeconds*1000 + picoseconds//10^6 == microsecond, and the picoseconds are whole microseconds |
| DatetimeUtil.PartsValues | src/blpapi/datetime.py:279-305 | The parts values `convertToBlpapi` writes read back as intended: DATE\|TIMEFRACSECONDS has date and time, DATE has no time, TIMEFRACSECONDS has no date; FRACSECONDS is set whenever time is; OFFSET is set iff an offset was stored |
| DatetimeUtil.ConvertedRoundTrip | src/blpapi/datetime.py:150-306 | For a date, time or datetime whose offset is whole minutes, `convertToNative(convertToBlpapi(t)) == t` |
| DatetimeUtil.RoundTripTz | src/blpapi/datetime.py:118-305 | The tzinfo read back from the stored parts and offset is the original one |
| DatetimeUtil.ToPyTimeRoundTrip | src/blpapi/ffi_utils.c:145-160 | The C decoder's call of `toPyTimeFromInts` on a converted struct has non-zero parts and gives the original value back |
| PyDatetime.FromMicrosOfTotal | src/blpapi/datetime.py:74 | A normalised timedelta is determined by its total microseconds, as Python's `timedelta` normalises days/seconds/microseconds |
| PyDatetime.MakeDate | src/blpapi/datetime.py:138-241 | `date(y, m, d)` succeeds iff the date is valid in the Gregorian calendar, and then is that date |
| PyDatetime.MakeTime | src/blpapi/datetime.py:140-249 | `time(h, m, s, us, tz)` succeeds iff the fields are in range, and then is that time |
| PyDatetime.MakeDateTime | src/blpapi/datetime.py:125-237 | `datetime(...)` succeeds iff both the date and the time fields are valid, and then is that datetime |
| PyDatetime.DaysInMonth | src/blpapi/datetime.py:125-138 | A month has 28 to 31 days, 29 exactly for February of a leap year |
| PyDatetime.UtcOffset | src/blpapi/datetime.py:300-303 | No tzinfo gives no offset; a successful offset is strictly within one day, as Python requires |
| LegacyDatetimeUtil.LegacyUtcOffset | blpapi/datetime.py:49-138 | The legacy offsets are whole minutes, and agree with Python's `utcoffset` |
| LegacyDatetimeUtil.ConvertToNative | blpapi/datetime.py:74-110 | Neither date nor time raises ValueError. Otherwise the result is shaped by the DATE bits and by all TIME bits, with milliseconds only, times 1000. It succeeds iff the present fields are valid |
| LegacyDatetimeUtil.ConvertToBlpapiWith | blpapi/datetime.py:117-150 | The legacy conversion with its offset rule as a parameter. Non-date/time raises TypeError; a date sets only DATE; a time fails iff its offset fails. Success carries the fields truncated to milliseconds, and sets OFFSET with the rule's value iff there is an offset |
| LegacyDatetimeUtil.ConvertToBlpapiAsWritten | blpapi/datetime.py:117-150 | As written: the stored offset is `offset.seconds // 60`, which drops the timedelta's days |
| LegacyDatetimeUtil.ConvertToBlpapi | blpapi/datetime.py:117-150 | Corrected: the stored offset is the offset in minutes. Every value that round-trips in the current version converts, and the offset is stored as minutes |
| LegacyDatetimeUtil.StoredOffsetIsMinutes | blpapi/datetime.py:56-148 | The corrected stored offset times 60 seconds is the whole offset, as `getOffsetInMinutes` reads it |
| LegacyDatetimeUtil.TruncatedToMillis | blpapi/datetime.py:129-142 | Truncating to milliseconds leaves a whole number of milliseconds |
| LegacyDatetimeUtil.RoundTripToMillis | blpapi/datetime.py:74-150 | Reading back a corrected legacy conversion gives the value truncated to milliseconds |
| LegacyDatetimeUtil.NegativeOffsetStoredAsWritten | blpapi/datetime.py:148 | As written, an offset of -300 minutes (UTC-5) is stored as 1140 |
| LegacyDatetimeUtil.NegativeOffsetReadBack | blpapi/datetime.py:74-110 | The stored 1140 reads back as UTC+19, a different offset from UTC-5 |
| LegacyDatetimeUtil.PartsValues | blpapi/datetime.py:77-149 | The parts values the legacy conversion writes read back as intended: DATE\|TIMEMILLI, DATE, TIMEMILLI, with OFFSET iff an offset was stored |
| PyElement.GetTraits | src/blpapi/element.py:205-228 | The dispatch order: str, bytes, bool before int, int32 exactly within [-2^31, 2^31-1], int64 exactly within the 64-bit range, float, date/time, Name, and `str()` for anything else. An int beyond 64 bits, and nothing else, raises ValueError("value is out of element's supported range") |
| PyElement.GetValue | src/blpapi/element.py:1551-1567 | The accessor is picked by data type, and types missing from the table read as strings. For each type the result is exactly the value that accessor reads: a bool, an int, a float, bytes, a str (char, string, decimal, correlation id), a Name (enumeration), the sub-element (sequence, choice) or the converted date/time. The read succeeds iff that accessor does, so never at or beyond numValues. Every failure is an engine error, except a date/time conversion failure, which is passed on |
| PyElement.GetValueAgreesWithToPy | src/blpapi/element.py:896-917 | For plain scalar types, `getValue` succeeds iff the C decoder's scalar conversion does, with the same value. An enumeration's Name has the decoder's text. Decimal and correlation-id fail in the decoder but read as strings here |
| PyElement.GetItem | src/blpapi/element.py:311-331 | An int index is `getValue`. A missing name raises KeyError and nothing else does. A complex or array sub-element is returned itself; a null scalar gives None; otherwise its value at 0 |
| PyElement.GetItemAgreesWithToPy | src/blpapi/element.py:311-331 | For a scalar sub-element, `element[name]` yields value v iff decoding that sub-element yields v |
| PyElement.Len | src/blpapi/element.py:382-393 | numElements for a complex element, numValues otherwise |
| PyElement.ItemAt | src/blpapi/element.py:54-65 | Item i of the iteration: the sub-element at i for a complex element (failing iff it cannot be read), else `getValue(i)` |
| PyElement.ElementIterator.Next | src/blpapi/element.py:54-65 | Each call advances the index. Below the length it yields item i, or its error; at or past the length it stops, on every further call |
| PyElement.ElementIterator.ToList | src/blpapi/element.py:54-65 | Draining a fresh iterator succeeds iff every item is readable. It then yields exactly `len(element)` items, item i being `ItemAt(i)`, in index order |
| PyElement.NameEquals | src/blpapi/name.py:119-128 | `Name.__eq__` against another object: None is unequal, a Name is equal iff it has the same text, a str (or bytes that decode) iff it equals the text, undecodable bytes raise, and any other object raises AttributeError |
| PyElement.NameEqualsIsNameEq | src/blpapi/name.py:119-128 | Over an interned table, comparing a handle's text is exactly `Name.__eq__` on the handle, its errors included |
| PyElement.ItemEquals | src/blpapi/element.py:406-408 | `==` between a value and the item: a Name on either side follows `Name.__eq__` (an enumeration value equals the Name, str or bytes of the same text; an int compared with a Name raises), other values compare by value, and a sub-Element equals nothing |
| PyElement.Contains | src/blpapi/element.py:395-408 | A complex element asks `hasElement` of the name (str or Name), and any other item raises the name-pair error; otherwise the scan of the values |
| PyElement.ValuesContainExists | src/blpapi/element.py:406-408 | When every value reads and compares, membership holds iff some index below numValues has a value that compares equal to the item |
| PyElement.ValuesContainStopsAtError | src/blpapi/element.py:406-408 | When no earlier value matched, the first comparison that raises ends the scan with its exception |
| PyElement.ContainsIffSomeValue | src/blpapi/element.py:395-408 | For a non-complex element whose values all read and compare, `item in element` holds iff some value compares equal to the item |
| PyElement.IsNullValue | src/blpapi/element.py:529-547 | Codes 0 and 1 give False and True; any other code raises the exception `raiseOnError` builds for it |
| ElementFromPy.FieldNamed | src/blpapi/element.py:1450-1453 | The schema field found for a name carries that name and is one of the element's fields |
| ElementFromPy.SetCallFor | src/blpapi/element.py:205-228 | `setValue`'s setter is chosen by the traits: a traits failure is an error, an int32 setter only receives values within int32, and the only other failure is the date/time conversion |
| ElementFromPy.StoreValue | src/blpapi/element.py:1544-1548 | A value whose traits fail is refused with the traits' error |
| ElementFromPy.Build | src/blpapi/element.py:1413-1548 | The element formatted from a value has the schema's name, data type and array flag. It is complex iff the schema type is sequence or choice and it is not an array |
| ElementFromPy.SubIndex | src/blpapi/element.py:1450-1453 | The sub-element already present under a name is found iff it exists, and it carries the name |
| ElementFromPy.BuildItems | src/blpapi/element.py:1486-1532 | A formatted array has exactly one entry per list item |
| ElementFromPy.FromPy | src/blpapi/element.py:1411-1460 | An element already formatted (with elements or values) is refused as "already been formatted"; otherwise formatting starts at the element itself with its name as path |
| ElementFromPy.ShapeChecks | src/blpapi/element.py:1462-1542 | A Mapping needs a complex element; a non-scalar sequence needs an array; None leaves the element untouched; any other value aimed at a complex or array element is an incompatible type |
| ElementFromPy.EntryChecks | src/blpapi/element.py:1486-1523 | Entry k of a list: a Mapping into a scalar array, a nested sequence, or a scalar into a complex array each fail at path `name[k]` with the entry's own reason |
| ElementFromPy.ItemsErrSticky | src/blpapi/element.py:1486-1532 | Once an entry has failed, later entries do not change the result |
| ElementFromPy.NestedSequenceRejected | src/blpapi/element.py:1501-1512 | A list that holds a list anywhere is refused |
| ElementFromPy.ScalarRoundTrip | src/blpapi/element.py:1544-1545 | A scalar stored by its setter reads back, through the C decoder, as the same value |
| ElementFromPy.ScalarStored | src/blpapi/element.py:1544-1545 | A scalar that fits its element's type is stored without error |
| ElementFromPy.RoundTrip | src/blpapi/element.py:1401-1411 | For every value that fits the schema, `fromPy` succeeds and `toPy` of the result returns the value itself |
| ElementFromPy.FieldsRoundTrip | src/blpapi/element.py:1470-1473 | The sub-elements formatted from a Mapping follow its keys in order, one per key, each decoding to the value under that key |
| ElementFromPy.PrefixDecodes | src/blpapi/element.py:1470-1473 | Decoding the first n formatted sub-elements gives the first n entries |
| ElementFromPy.ItemsRoundTrip | src/blpapi/element.py:1483-1532 | Every entry of a fitting list is formatted, and each formatted slot decodes to its entry |
| ElementFromPy.ItemsDecode | src/blpapi/element.py:1483-1532 | The formatted array decodes to the original list |
| EventFormatter.GetTraits | src/blpapi/eventformatter.py:108-133 | The same dispatch as `Element`'s, with the same result on every value it accepts. It fails exactly where `Element`'s does, but with InvalidConversionException("Value is out of supported range (INT64): v", code 0) |
| EventFormatter.AppendValueOp | src/blpapi/eventformatter.py:428-438 | Bytes raise NotImplementedError("Arrays of bytes are not supported.") before any engine call |
| EventFormatter.Fail | src/blpapi/eventformatter.py:609-612 | Every path error message starts with "While operating on Element `" followed by the latest message name |
| EventFormatter.ScalarFailure | src/blpapi/eventformatter.py:691-710 | Every failure of a scalar set is re-raised with the path message of the latest message name |
| EventFormatter.FromPy | src/blpapi/eventformatter.py:581-583 | A non-Mapping is refused with "`value` must be a `Mapping` instance", and no engine call is made |
| EventFormatter.Formatter.constructor | src/blpapi/eventformatter.py:135-152 | No calls yet, and no latest message name |
| EventFormatter.Formatter.Call | src/blpapi/eventformatter.py:185-191 | One engine call is recorded, and its code goes through `raiseOnError` |
| EventFormatter.Formatter.AppendMessageOf | src/blpapi/eventformatter.py:154-202 | The call is made; the latest message name becomes the message type only when the engine accepts it |
| EventFormatter.Formatter.AppendResponseOf | src/blpapi/eventformatter.py:204-237 | The call is made; the latest message name becomes "<Response>" only when the engine accepts it |
| EventFormatter.Formatter.AppendRecap | src/blpapi/eventformatter.py:239-318 | The call is made; the latest message name becomes "<Recap>" only when the engine accepts it |
| EventFormatter.Formatter.SetElementValue | src/blpapi/eventformatter.py:320-349 | The traits, the conversion, then the engine's setter; a traits or conversion failure makes no call |
| EventFormatter.Formatter.AppendValueOf | src/blpapi/eventformatter.py:428-438 | The traits, the bytes refusal, the conversion, then the engine's appender |
| EventFormatter.Formatter.FromPyOf | src/blpapi/eventformatter.py:581-583 | The method makes exactly the calls and raises exactly the error of the specification `FromPy`; the latest message name is unchanged |
| EventFormatter.Formatter.HelperOf | src/blpapi/eventformatter.py:585-710 | The recursive method makes exactly the calls, leaves exactly the path, and raises exactly the error that the specification `Helper` gives |
| EventFormatter.Formatter.MappingOf | src/blpapi/eventformatter.py:614-637 | The loop over a Mapping's items agrees with the specification, stopping at the first error |
| EventFormatter.Formatter.EntryOf | src/blpapi/eventformatter.py:615-637 | A non-empty Mapping: push, key on the path, recurse, pop, path popped. An empty Mapping: setElementNull. Anything else: recurse under the key. Push and null failures get the path message; pop failures propagate bare |
| EventFormatter.Formatter.SequenceOfValue | src/blpapi/eventformatter.py:641-683 | One push of the name; each entry with `name[i]` on the path, popped after it; then one final pop |
| EventFormatter.Formatter.ItemOf | src/blpapi/eventformatter.py:650-680 | A Mapping entry: appendElement (its failure says a scalar was expected), recurse, pop. A nested sequence is refused. A scalar is appended, its failure re-raised with the path message |
| EventFormatter.HelperKeeps | src/blpapi/eventformatter.py:585-710 | `_fromPyHelper` keeps the calls made before it. On success, every push/appendElement it made is closed by a pop, no pop closes more than it opened, and the path deque is as it found it. On failure the exception carries the path message, unless it is the engine refusing the `popElement` just made |
| EventFormatter.MappingFromKeeps | src/blpapi/eventformatter.py:614-637 | The same for the items of a Mapping from any index on |
| EventFormatter.MappingEntryKeeps | src/blpapi/eventformatter.py:615-637 | The same for one Mapping item |
| EventFormatter.SequenceOfKeeps | src/blpapi/eventformatter.py:641-683 | The same for a list: its push and final pop enclose balanced entries |
| EventFormatter.ItemsFromKeeps | src/blpapi/eventformatter.py:648-681 | The same for the entries of a list from any index on |
| EventFormatter.ItemStepKeeps | src/blpapi/eventformatter.py:650-680 | One entry keeps the earlier calls and reports errors the same way. On success its calls are balanced and only its `name[i]` label was added to the path, and `path.pop()` removes it |
| EventFormatter.ScalarKeeps | src/blpapi/eventformatter.py:685-710 | A scalar makes at most one call, which neither opens nor closes an element, and leaves the path unchanged. Every failure carries the path message |
| EventFormatter.FromPyBalanced | src/blpapi/eventformatter.py:581-710 | `fromPy` of a Mapping only appends calls. On success its pushes/appendElements and pops balance and the path deque ends empty. On failure the message names the latest message, except for a refused `popElement` |
| EventFormatter.ScalarIntoArrayReported | src/blpapi/eventformatter.py:685-698 | When the engine refuses `setElement` with an index-out-of-range code, the message is the array-with-scalar one, at the path that includes the element's own name |
| EventFormatter.OutOfRangeMakesNoCall | src/blpapi/eventformatter.py:699-706 | An int beyond 64 bits makes no engine call and is reported at the path with the element's name, as InvalidConversion is |
| MessageFormatter.Mro | src/blpapi/test/messageformatter.py:32-60 | The resolution order starts at the value's own class (bool is followed by int, datetime by date) |
| MessageFormatter.Resolve | src/blpapi/test/messageformatter.py:40-54 | `singledispatch` picks the first class of the order that has a registered implementation, and no earlier one has; with none, the base function |
| MessageFormatter.SingleDispatch | src/blpapi/test/messageformatter.py:32-60 | Dispatch looks at the class of the argument at `arg_index`, not at `self`. An exact registration wins; the chosen class is registered and in the value's order; the base function is chosen iff no class of the order is registered |
| MessageFormatter.SetDispatched | src/blpapi/test/messageformatter.py:130-236 | `_setElement` dispatches on the value (argument 2, after `self` and the name): the value's own class when registered, the base function only for an unregistered class |
| MessageFormatter.AppendDispatched | src/blpapi/test/messageformatter.py:292-373 | `appendValue` dispatches on argument 1: the value's own class when it has an appender, the base function otherwise |
| MessageFormatter.SetElementCall | src/blpapi/test/messageformatter.py:130-236 | bool uses the bool setter (never the int one). An int within int32 uses the Int32 setter, else within int64 the Int64 setter, else ValueError("Value is out of element's supported range"). None uses setValueNull, a float the float setter, a str the string setter, bytes the bytes setter and a Name the Name setter. A date/time succeeds iff its conversion does. An unregistered class raises TypeError |
| MessageFormatter.NameHandle | src/blpapi/test/messageformatter.py:125-127 | A Name is used as it is; a str is first made a Name, interned in the name table |
| MessageFormatter.SetElement | src/blpapi/test/messageformatter.py:99-128 | The name is converted to a Name before the dispatch on the value, and the call made is the dispatched setter for that Name |
| MessageFormatter.PushElementCall | src/blpapi/test/messageformatter.py:238-278 | `pushElement` receives the Name handle that the name converts to |
| MessageFormatter.AppendValueCall | src/blpapi/test/messageformatter.py:292-373 | The same int32/int64/ValueError ranges as `setElement`, and bool before int; a float and a Name use their own appenders and a str the string appender. Any class with no registered appender, None and bytes included, goes to the string appender unchanged |
| MessageFormatter.SetAndAppendAgree | src/blpapi/test/messageformatter.py:130-373 | For every class both register, `appendValue` makes the append call matching `setElement`'s set call, or raises the same error. For None and bytes, `setElement` has setters of its own while `appendValue` falls back to the string appender |
| MessageFormatter.FormatMessageDictCall | src/blpapi/test/messageformatter.py:430-444 | `formatMessageDict(d)` is exactly `formatMessageJson(json.dumps(d))` |
| SubscriptionList.TextOf | src/blpapi/subscriptionlist.py:178-187 | A str is kept. Bytes are decoded, and fail exactly when they do not decode |
| SubscriptionList.OptionEntries | src/blpapi/subscriptionlist.py:191-196 | One text per dict entry, in order: "key" for a None value, else "key=value" |
| SubscriptionList.Subscription | src/blpapi/subscriptionlist.py:180-202 | The subscription string always starts with the topic |
| SubscriptionList.Add | src/blpapi/subscriptionlist.py:146-206 | A None correlation id becomes a fresh one. The call succeeds iff both the fields and the options convert, and then the string sent is the topic, then "?fields=" and the fields when there are some, then the options after "&" or "?"; the topic is a prefix of it. Otherwise the first conversion error, fields before options, is raised |
| SubscriptionList.SubscriptionRoundTrip | src/blpapi/subscriptionlist.py:177-202 | "?fields=" is added only for non-empty fields; options follow "&" after fields, else "?", and only when non-empty. So topic, fields and options come back from the string when the topic has no "?" and the fields no "&" |
| SubscriptionList.AddRoundTrip | src/blpapi/subscriptionlist.py:146-206 | The string `add` sends gives back its topic, its fields text and its options text under the same conditions |
| SubscriptionList.PlainTopicUnchanged | src/blpapi/subscriptionlist.py:172-206 | With no fields and no options, the topic reaches the engine unchanged, with the given or a fresh correlation id |
| SubscriptionList.DictOptionsRoundTrip | src/blpapi/subscriptionlist.py:191-196 | Splitting a dict's options text on "&" gives back its entries one by one, when no key or value holds "&" |
| Exceptions.ClassBits | src/blpapi/exception.py:126 | `errorCode & 0xFF0000` is a multiple of 0x10000 within 0..0xFF0000 |
| Exceptions.GetErrorClass | src/blpapi/exception.py:111-129 | The duplicate-correlation-id code maps to DuplicateCorrelationIdException before any masking. Otherwise the class is taken from the table by `code & 0xFF0000`, and UnknownErrorException exactly when the table lacks it |
| Exceptions.ClassIgnoresOtherBits | src/blpapi/exception.py:126-129 | Changing the code outside bits 16-23 does not change its class (the duplicate code aside) |
| Exceptions.ClassBitsOfClass | src/blpapi/exception.py:126 | A class constant k*0x10000 keeps its bits under the mask |
| Exceptions.ClassConstantsSelect | src/blpapi/exception.py:111-129 | Each class constant selects its own exception class; the I/O class, absent from the table, selects UnknownErrorException; a code 4 above the invalid-argument class is the duplicate id, 5 above it an invalid argument |
| Exceptions.RaiseException | src/blpapi/exception.py:131-141 | The exception class is the code's, and the code is kept. A given description is kept as it is; a missing one is the engine's last-error text, or "Unknown" when that is empty |
| Exceptions.RaiseOnError | src/blpapi/exception.py:143-151 | Raises iff the code is non-zero, with the exception `raiseException` builds |
| Exceptions.FormatHexReadsBack | src/blpapi/exception.py:31-33 | `format(code, "#010x")` is at least ten characters: "0x" (after "-" for a negative code) followed by hex digits whose value is the code's magnitude |
| Exceptions.HexDigitsRoundTrip | src/blpapi/exception.py:33 | The hexadecimal digits of n read back as n |
| Exceptions.StrAsWritten | src/blpapi/exception.py:31-33 | `__str__` has a text exactly when the exception carries a code; with a code of None, formatting raises |
| Exceptions.Str | src/blpapi/exception.py:31-33 | With a code, the same text as `__str__`; without one, the description alone |
| Exceptions.ElementsExceptionHasNoText | src/blpapi/element.py:688-691 | The UnsupportedOperationException that `Element.elements()` raises with a code of None has no `__str__` text as written, and its description under `Str` |
| Utils.Iterator.constructor | src/blpapi/utils.py:48-57 | The count is captured at construction, and the index starts at 0 |
| Utils.Iterator.Next | src/blpapi/utils.py:62-67 | At index == count, StopIteration, on every further call. Otherwise the getter's item at the index, or its error; the index advances only when an item is yielded |
| Utils.Iterator.ToList | src/blpapi/utils.py:48-67 | Draining yields exactly what `Remaining` gives from the current index, and then the index is at the count |
| Utils.NextItem | src/blpapi/utils.py:62-67 | StopIteration exactly at index == count |
| Utils.RemainingItems | src/blpapi/utils.py:48-67 | From index i, the iteration yields count-i items, item k being getter(i+k), when no getter call fails. Otherwise it yields the error of the first failing call |
| Utils.EnumConstantsStable | src/blpapi/utils.py:83-99 | `__setattr__` raises EnumError iff the name is upper-case and already defined. Upper-case attributes that are defined keep their value through every assignment and deletion; other assignments touch only their own name |
| Utils.EnumClass.SetAttr | src/blpapi/utils.py:83-90 | The class dictionary after `cls.name = value`, or the EnumError with the dictionary unchanged |
| Utils.EnumClass.DelAttr | src/blpapi/utils.py:92-99 | The class dictionary after `del cls.name`; the EnumError, or AttributeError for a missing name, leaves it unchanged |
| Utils.GetHandle | src/blpapi/utils.py:102-114 | None for a None object, a None handle or a `c_void_p` whose value is None; otherwise the handle itself |
| Utils.GetHandleIdempotent | src/blpapi/utils.py:102-114 | Applying `get_handle` to its own result changes nothing, and a handle it returns is never null |
| Utils.InvokeIfValid | src/blpapi/utils.py:117-121 | `cb(value)` when cb is callable, else the value unchanged |
| Utils.NonScalarSequenceKinds | src/blpapi/utils.py:174-176 | A value is a non-scalar sequence iff it is a list or a tuple; str, bytes and Mappings are not |
| Utils.Conv2Str | src/blpapi/utils.py:184-189 | A str passes through; bytes become the str they decode to (failing iff they do not decode); anything else gives None |
| Utils.Conv2StrIdempotent | src/blpapi/utils.py:184-189 | Converting a converted value again changes nothing |
| Names.FindName | src/blpapi/name.py:54-67 | The engine's lookup finds a handle exactly for strings in the table, and the handle names the string |
| Names.Create | src/blpapi/name.py:85-94 | `Name(s)` gives a handle for s; the table grows by s only when s is new |
| Names.CreateInterns | src/blpapi/name.py:85-94 | Interning keeps one entry per string and never moves an entry. Creating the same string again gives the same handle, and `findName` then finds it |
| Names.FindNameObject | src/blpapi/name.py:54-67 | `findName` returns None exactly when the engine has no handle for the string; otherwise a Name for that string |
| Names.GetNamePair | src/blpapi/name.py:139-166 | A Name gives (None, handle); str or bytes give (conv2str(name), None); anything else raises TypeError. Exactly one half of the pair is set |
| Names.NameEq | src/blpapi/name.py:119-128 | `==` with None is False; with a Name it compares handles; with a string it compares the text. Any other object fails, as `get_handle` on it does |
| Names.NameNe | src/blpapi/name.py:130-132 | `!=` is the negation of `==`, and fails exactly when `==` does |
| Names.NameEqualityAgreesWithText | src/blpapi/name.py:119-136 | Two interned Names are equal iff their texts are, equal Names hash equally, and a Name equals its own text |
| CtypesUtils.SafeUint16 | src/blpapi/ctypesutils.py:28-37 | The value is returned iff 0 <= v <= 0xFFFF, else OverflowError |
| CtypesUtils.GetHandleFromPtr | src/blpapi/ctypesutils.py:40-47 | None for a null or zero pointer, otherwise the pointer wrapped with its non-zero value |
| CtypesUtils.GetHandleFromOutput | src/blpapi/ctypesutils.py:50-63 | The output's contents iff the return code is 0 |
| CtypesUtils.GetFromOutput | src/blpapi/ctypesutils.py:115-120 | `getPODFromOutput` and `getStructFromOutput`: the contents iff the return code is 0 |
| CtypesUtils.GetStrFromC | src/blpapi/ctypesutils.py:66-75 | A null value gives the default. Otherwise the decoded text, failing exactly when the bytes do not decode |
| CtypesUtils.GetStrFromOutput | src/blpapi/ctypesutils.py:78-84 | A non-zero return code gives the default; otherwise `getStrFromC` of the output |
| CtypesUtils.GetSizedBytesFromOutput | src/blpapi/ctypesutils.py:101-112 | A non-zero return code gives the default. A null pointer or zero size gives b"". Otherwise the first `size` bytes of the buffer |
| CtypesUtils.GetSizedStrFromOutput | src/blpapi/ctypesutils.py:87-98 | The same, with "" and the decoded bytes |
| CtypesUtils.SizedStrIsDecodedBytes | src/blpapi/ctypesutils.py:87-112 | The sized string is the decoding of the sized bytes |
| CtypesUtils.CharPtrFromPyStr | src/blpapi/ctypesutils.py:123-126 | A str is encoded; everything else is returned unchanged |
| CtypesUtils.CharPtrWithSizeFromPyStr | src/blpapi/ctypesutils.py:129-137 | A str gives its UTF-8 bytes with their length; None gives (None, 0); bytes give themselves with their length |
| CtypesUtils.SizedCharPtrRoundTrip | src/blpapi/ctypesutils.py:123-137 | The sized conversion hands over the same bytes as the unsized one, with their length as size; reading them back with a decoder that inverts the encoder gives the string (or "" for an empty encoding) |
| Handles.ReleaseCall | src/blpapi/chandle.py:31-36 | `destroy` calls the destructor once for a non-null handle, with its address, and not at all otherwise |
| Handles.CHandle.constructor | src/blpapi/chandle.py:16-21 | Only a `c_void_p` or None is accepted; nothing has been released |
| Handles.CHandle.Destroy | src/blpapi/chandle.py:31-36 | The destructor is called at most once per handle. Afterwards the handle is not truthy, so a second `destroy` releases nothing |
| Handles.CHandle.Del | src/blpapi/chandle.py:23-29 | `__del__` releases exactly what `destroy` would |
| Handles.AuthReleaseCalls | src/blpapi/auth.py:104-114 | Options, then app, then token: one release for each non-null handle, and none released twice |
| Handles.AuthOptions.constructor | src/blpapi/auth.py:16-24 | The options handle, the app handle and the token handle are kept as given |
| Handles.AuthOptions.Destroy | src/blpapi/auth.py:104-114 | Each non-null handle is released once and set to None. A second `destroy` releases nothing. The base `CHandle`'s own handle is untouched |
| Handles.DestroyedHandleStillHandedOut | src/blpapi/auth.py:19-108 | After `destroy`, the inherited `_handle()` still hands out the released options handle; reading the options handle gives None |
| Handles.DestroyedHandleWithdrawn | src/blpapi/auth.py:104-108 | Corrected: reading the options handle, `get_handle` after `destroy` yields None for any options whose handle was live |
| Handles.CreateWithUser | src/blpapi/auth.py:27-43 | Raises iff the engine's code is non-zero, before wrapping; otherwise the options hold only the options handle |
| Handles.CreateWithApp | src/blpapi/auth.py:46-102 | The app handle is created first, and each step raises on a non-zero code. The options keep the app handle |
| Handles.CreateWithToken | src/blpapi/auth.py:64-130 | The token handle is created first, and each step raises on a non-zero code. The options keep the token handle |
| SessionOptions.ValidatePort | src/blpapi/sessionoptions.py:982-987 | ValueError iff the port is below 1 or above 65535, with the source's message |
| SessionOptions.PortMessageNamesPort | src/blpapi/sessionoptions.py:985-987 | The message of a rejected port holds the port's decimal text |
| SessionOptions.KeepAliveValue | src/blpapi/sessionoptions.py:494 | True and False are sent as 1 and 0 |
| SessionOptions.KeepAliveRoundTrip | src/blpapi/sessionoptions.py:494-499 | `setKeepAliveEnabled` stores 1 or 0, and reading that value back as a Python bool gives the boolean that was set |
| SessionOptions.Engine.constructor | src/blpapi/sessionoptions.py:103-104 | No engine calls yet |
| SessionOptions.Engine.Socks5Config | src/blpapi/sessionoptions.py:39-52 | The port is checked before the proxy is created; a bad port makes no engine call |
| SessionOptions.Engine.SetServerPortOf | src/blpapi/sessionoptions.py:139-154 | The port is checked first; then one engine call, whose code decides whether it raises |
| SessionOptions.Engine.SetServerAddress | src/blpapi/sessionoptions.py:156-183 | The same; the proxy is passed by its handle or as None |
| SessionOptions.Engine.SetKeepAlive | src/blpapi/sessionoptions.py:479-497 | The engine receives 1 or 0. Raises iff its code is non-zero |
| SessionOptions.Engine.SetIdentityOptions | src/blpapi/sessionoptions.py:327-378 | A None correlation id becomes a fresh one. None options become default options, created first; their failure raises before anything else. Otherwise the engine's correlation id is returned, unless its code raises |
| SessionOptions.IdentityId | src/blpapi/sessionoptions.py:360-361 | The caller's correlation id, or a fresh one for None |
| SessionOptions.RejectedPortReachesNoEngine | src/blpapi/sessionoptions.py:982-987 | A rejected port raises the ValueError at each of the three entry points, with no engine call at all |
| Logging.RegisterError | src/blpapi/logging.py:74-77 | -1 gives ValueError("parameter must be a function"), -2 RuntimeError("unable to register callback"), any other code no error |
| Logging.AtMostOne | src/blpapi/logging.py:80-86 | The list a held entry stands for has at most one element |
| Logging.RetainedLatest | src/blpapi/logging.py:80-86 | Appending and then dropping the oldest of two leaves exactly the latest non-None registration |
| Logging.Logger.constructor | src/blpapi/logging.py:32 | Nothing held, nothing registered, no exit handlers |
| Logging.Logger.RegisterCallback | src/blpapi/logging.py:38-93 | A callback with fewer than 5 parameters raises TypeError before the engine is called. Otherwise the wrapper (or None) is registered; -1/-2 raise with the list unchanged. Else the list holds the latest non-None callback alone, and one exit handler is added |
| Logging.WrapperFor | src/blpapi/logging.py:49-68 | A wrapper exactly when a callback is given, binding that callback |
| Logging.RegisterThenRemove | src/blpapi/logging.py:49-86 | Registering None passes None to the engine and keeps the held callback; a second callback replaces the first |
| SessionRouter.Get | examples/demoapps/util/events/SessionRouter.py:33-50 | `dict.get`: the handler registered for the key, or None exactly when there is none |
| SessionRouter.RunUntilRaiseStops | examples/demoapps/util/events/SessionRouter.py:30-55 | The calls made are a prefix of those planned. When one raises, it is the last one made, and none before it raised; when none raises, every planned call is made |
| SessionRouter.RunSeq | examples/demoapps/util/events/SessionRouter.py:30-52 | Running two call lists one after the other: the second runs only when nothing in the first raised |
| SessionRouter.StopsTrans | examples/demoapps/util/events/SessionRouter.py:30-52 | A run that has not raised, followed by one that stops at its first raise, stops at its first raise |
| SessionRouter.InvokeStops | examples/demoapps/util/events/SessionRouter.py:34-52 | One handler call is made, and the run reports a raise exactly when that call raised |
| SessionRouter.CidRunStops | examples/demoapps/util/events/SessionRouter.py:41-44 | The correlation-id handlers of a message are called until one raises, even while handlers add or remove correlation-id handlers |
| SessionRouter.MessageRunStops | examples/demoapps/util/events/SessionRouter.py:41-52 | One message's handlers are called until one raises |
| SessionRouter.MessagesRunStops | examples/demoapps/util/events/SessionRouter.py:40-52 | The messages' handlers are called until one raises |
| SessionRouter.ExceptRunStops | examples/demoapps/util/events/SessionRouter.py:53-55 | The exception handlers are called in order until one raises, and the calls made are a prefix of one call per handler with the same exception |
| SessionRouter.ProcessEventStops | examples/demoapps/util/events/SessionRouter.py:27-55 | Whatever the handlers change, the `try` block stops at the first call that raises. Only then are exception handlers called: those registered at that moment, in order, until one raises, and that one escapes. With no raise no exception handler runs and the result is Ok |
| SessionRouter.MessageCallsSplit | examples/demoapps/util/events/SessionRouter.py:41-52 | The handlers for one message: the correlation-id handlers for its ids in order, then the event type's message handler, then the message type's handler |
| SessionRouter.CidCallsFor | examples/demoapps/util/events/SessionRouter.py:41-44 | Every correlation-id call for a message is a message-handler call for that message |
| SessionRouter.MessageCallsFor | examples/demoapps/util/events/SessionRouter.py:41-52 | Every call made for one message is a message-handler call for that message |
| SessionRouter.PrependInOrder | examples/demoapps/util/events/SessionRouter.py:40-52 | Calls for one message put before calls for later messages keep the message order |
| SessionRouter.MessagesInOrder | examples/demoapps/util/events/SessionRouter.py:40-52 | The message-handler calls for an event go message by message: every call names one of its messages, and a later call never names an earlier message |
| SessionRouter.ExceptionCalls | examples/demoapps/util/events/SessionRouter.py:54-55 | One call per exception handler, in registration order, each with the same exception |
| SessionRouter.StaticSeq | examples/demoapps/util/events/SessionRouter.py:30-52 | Running a call list in two parts gives the same calls and raise as running it whole, when no handler changes the tables |
| SessionRouter.InvokeIfStatic | examples/demoapps/util/events/SessionRouter.py:43-52 | With no table changes, an optional handler lookup makes one call or none |
| SessionRouter.CidRunStatic | examples/demoapps/util/events/SessionRouter.py:41-44 | With no table changes, the correlation-id loop makes the planned calls until one raises |
| SessionRouter.MessageRunStatic | examples/demoapps/util/events/SessionRouter.py:41-52 | With no table changes, one message makes its planned calls until one raises |
| SessionRouter.MessagesRunStatic | examples/demoapps/util/events/SessionRouter.py:40-52 | With no table changes, the message loop makes the planned calls until one raises |
| SessionRouter.ExceptRunStatic | examples/demoapps/util/events/SessionRouter.py:53-55 | With no table changes, the exception loop hands the exception to every handler in order until one raises |
| SessionRouter.TryRunStatic | examples/demoapps/util/events/SessionRouter.py:30-52 | With no table changes, the `try` block makes the planned calls (the event handler first, then the messages' handlers) until one raises |
| SessionRouter.ProcessWithoutEdits | examples/demoapps/util/events/SessionRouter.py:27-55 | When no handler changes the router, the tables are left as they were and the calls made are the plan up to the first raise, then every exception handler up to the first that raises. The result is Err exactly when an exception handler's exception escapes |
| SessionRouter.RemovalTakesEffectAtOnce | examples/demoapps/util/events/SessionRouter.py:41-44 | A handler that removes its own correlation id is not called again for a later message of the same event with that id, although the table held it when the event arrived |
| SessionRouter.EventHandlerRegistrationTakesEffect | examples/demoapps/util/events/SessionRouter.py:33-38 | The event type's message handler is looked up after the event handler ran, so one the event handler registers receives the event's messages |
| SessionRouter.Router.constructor | examples/demoapps/util/events/SessionRouter.py:19-25 | Every table is empty, as is the exception handler list |
| SessionRouter.Router.ProcessEvent | examples/demoapps/util/events/SessionRouter.py:27-55 | The tables, the calls made and the result are those of `ProcessRun`, the step-by-step run of the source's `try` and `except` blocks that applies each call's table changes before the next lookup |
| SessionRouter.Router.DispatchEvent | examples/demoapps/util/events/SessionRouter.py:30-52 | The `try` block: the event handler, then every message with the event type's message handler looked up after it, as `TryRun` states |
| SessionRouter.Router.DispatchMessages | examples/demoapps/util/events/SessionRouter.py:40-52 | The loop over messages, until a handler raises, as `MessagesRun` states |
| SessionRouter.Router.DispatchMessage | examples/demoapps/util/events/SessionRouter.py:41-52 | For one message: the correlation-id handlers, the event type's handler, then the message type's handler looked up at that point, as `MessageRun` states |
| SessionRouter.Router.DispatchCorrelationIds | examples/demoapps/util/events/SessionRouter.py:41-44 | Each correlation id's handler is looked up in the table as it is when that id comes, until one raises, as `CidRun` states |
| SessionRouter.Router.DispatchOptional | examples/demoapps/util/events/SessionRouter.py:43-52 | A handler is called only when the lookup found one |
| SessionRouter.Router.HandleException | examples/demoapps/util/events/SessionRouter.py:53-55 | The exception handlers registered when the exception was caught, in order, until one raises, which is the Err result |
| SessionRouter.Router.Call | examples/demoapps/util/events/SessionRouter.py:35-55 | A handler call is recorded and its table changes are made in order, through the router's own methods |
| SessionRouter.Router.ApplyEdit | examples/demoapps/util/events/SessionRouter.py:57-82 | A change a handler makes goes through the matching `add*` or `remove*` method and does exactly what `Apply` says |
| SessionRouter.Router.AddEventHandlerByEventType | examples/demoapps/util/events/SessionRouter.py:57-60 | The handler for the event type is set (overwriting); nothing else changes |
| SessionRouter.Router.AddMessageHandlerByEventType | examples/demoapps/util/events/SessionRouter.py:62-65 | The same for the event type's message handler |
| SessionRouter.Router.AddMessageHandlerByMessageType | examples/demoapps/util/events/SessionRouter.py:67-70 | The same for the message type's handler |
| SessionRouter.Router.AddMessageHandlerByCorrelationId | examples/demoapps/util/events/SessionRouter.py:72-75 | The same for the correlation id's handler |
| SessionRouter.Router.AddExceptionHandler | examples/demoapps/util/events/SessionRouter.py:77-78 | The handler is appended; exception handlers are never removed or reordered |
| SessionRouter.Router.RemoveMessageHandlerByCorrelationId | examples/demoapps/util/events/SessionRouter.py:80-82 | The key is removed; an absent key changes nothing |
| ConnectionAndAuthOptions.ParseHostPort | examples/demoapps/util/ConnectionAndAuthOptions.py:82-93 | An accepted host:port prints back to the text it came from; its host has no ":" and its port keeps the text given |
| ConnectionAndAuthOptions.ParseHostPortAccepts | examples/demoapps/util/ConnectionAndAuthOptions.py:84-93 | Accepted iff the text has a ":" and what follows the first one reads as an int in 1 through 65535. Without a ":" it is an invalid host option |
| ConnectionAndAuthOptions.ParseServerAddress | examples/demoapps/util/ConnectionAndAuthOptions.py:95-106 | The text is cut at its first "/" into endpoint and optional SOCKS5 proxy; an accepted address prints back to the text it came from |
| ConnectionAndAuthOptions.HostPortRoundTrip | examples/demoapps/util/ConnectionAndAuthOptions.py:82-93 | A host without ":" and a port text in range are read back from their printed form |
| ConnectionAndAuthOptions.ServerAddressRoundTrip | examples/demoapps/util/ConnectionAndAuthOptions.py:95-106 | Every well-formed address, with or without a proxy, is read back from its printed form |
| ConnectionAndAuthOptions.ParseUserIdIp | examples/demoapps/util/ConnectionAndAuthOptions.py:114-120 | Accepted iff the text splits on ":" into exactly two parts; otherwise "Invalid auth option" |
| ConnectionAndAuthOptions.UserIdIpParts | examples/demoapps/util/ConnectionAndAuthOptions.py:114-120 | An accepted pair is the text's two parts, neither holding ":", and joins back to the text |
| ConnectionAndAuthOptions.UserIdIpRoundTrip | examples/demoapps/util/ConnectionAndAuthOptions.py:114-120 | A user id and IP free of ":" are read back from "userId:ip" |
| ConnectionAndAuthOptions.AuthOptionFor | examples/demoapps/util/ConnectionAndAuthOptions.py:12-55 | Every rejection is "Invalid auth option '<text>'" |
| ConnectionAndAuthOptions.AuthOptionKinds | examples/demoapps/util/ConnectionAndAuthOptions.py:13-25 | "user" needs no value and ignores any; "none" is the only option giving no session identity; any other kind without "=value" is rejected |
| ConnectionAndAuthOptions.ManualOptionParts | examples/demoapps/util/ConnectionAndAuthOptions.py:42-51 | A manual request comes only from "manual=app,ip,userId" with exactly three comma-free parts, in that order |
| ConnectionAndAuthOptions.AuthOptionRoundTrip | examples/demoapps/util/ConnectionAndAuthOptions.py:12-55 | Every request an option can express (user, none, app, userapp, dir, manual) is read back from its option text |
| ConnectionAndAuthOptions.ManualRoundTrip | examples/demoapps/util/ConnectionAndAuthOptions.py:42-51 | "manual=app,ip,userId" gives the user-and-app request with manual user (userId, ip) and that app |
| ConnectionAndAuthOptions.ManualRequest | examples/demoapps/util/ConnectionAndAuthOptions.py:42-51 | A manual option with three comma-separated parts asks for user-and-application authorization: application from part 0, IP from part 1, user from part 2 |
| ConnectionAndAuthOptions.AppNameFor | examples/demoapps/util/ConnectionAndAuthOptions.py:61-70 | Accepted iff the text is "app=<name>", and the name is what follows |
| ConnectionAndAuthOptions.Args.constructor | examples/demoapps/util/ConnectionAndAuthOptions.py:133-237 | The namespace starts with no hosts, no users, no app name and no session identity |
| ConnectionAndAuthOptions.Args.HostAction | examples/demoapps/util/ConnectionAndAuthOptions.py:95-106 | Exactly one parsed address is appended to the hosts on success; nothing else changes |
| ConnectionAndAuthOptions.Args.UserIdIpAction | examples/demoapps/util/ConnectionAndAuthOptions.py:114-120 | The parsed pair is appended on success; nothing else changes |
| ConnectionAndAuthOptions.Args.AppAuthAction | examples/demoapps/util/ConnectionAndAuthOptions.py:61-72 | On success both the app name and the session identity (app options for it) are set |
| ConnectionAndAuthOptions.Args.AuthOptionsAction | examples/demoapps/util/ConnectionAndAuthOptions.py:12-55 | On success the session identity becomes the parsed request (None for "none"); nothing else changes |
| ConnectionAndAuthOptions.UserPairs | examples/demoapps/util/ConnectionAndAuthOptions.py:287-292 | One entry per user in input order, keyed "userId:ip", with manual options for that user and the app |
| ConnectionAndAuthOptions.TokenPairs | examples/demoapps/util/ConnectionAndAuthOptions.py:294-296 | One entry per token, keyed "token #k" with k counted from 1 |
| ConnectionAndAuthOptions.CreateClientServerSetupAuthOptions | examples/demoapps/util/ConnectionAndAuthOptions.py:281-298 | The two loops build exactly the dict of the user entries followed by the token entries |
| ConnectionAndAuthOptions.SetupPrefixPairs | examples/demoapps/util/ConnectionAndAuthOptions.py:286-298 | After n insertions, the dict is that of the first n entries |
| ConnectionAndAuthOptions.SetupTableTokens | examples/demoapps/util/ConnectionAndAuthOptions.py:294-296 | Keys are unique, and "token #k" holds the k-th token's options |
| ConnectionAndAuthOptions.SetupTableUsers | examples/demoapps/util/ConnectionAndAuthOptions.py:287-292 | A user listed more than once keeps the entry of their last listing |
| ConnectionAndAuthOptions.SetupTableKeys | examples/demoapps/util/ConnectionAndAuthOptions.py:286-298 | The dict has an entry for exactly the users' keys and the tokens' keys |
| ConnectionAndAuthOptions.UserKeyInjective | examples/demoapps/util/ConnectionAndAuthOptions.py:292 | Two users with the same key are the same user (user ids hold no ":") |
| ConnectionAndAuthOptions.TokenKeyInjective | examples/demoapps/util/ConnectionAndAuthOptions.py:296 | Different token numbers give different keys |
| ConnectionAndAuthOptions.TokenKeyHasNoColon | examples/demoapps/util/ConnectionAndAuthOptions.py:292-296 | A token key never collides with a user key |
| ConnectionAndAuthOptions.GetTlsOptions | examples/demoapps/util/ConnectionAndAuthOptions.py:253-278 | TLS options exist iff both credentials and trust material are given (and, when the files are to be read, both reads succeed), and the password is passed on. They come from the blobs iff asked to read the files: the credentials file is read first and its failure escapes, then the trust-material file's; the blobs are what the reads return. Otherwise they come from the two file names |
| ConnectionAndAuthOptions.ConnectionFor | examples/demoapps/util/ConnectionAndAuthOptions.py:309-335 | A leased-line port without TLS raises "ZFP connections require TLS parameters". With TLS, it is the leased line, and the hosts are ignored. Otherwise the hosts in order, with TLS when given |
| RequestOptions.AddMinutes | examples/demoapps/util/RequestOptions.py:215-216 | Adding m whole minutes to a valid datetime moves its minute count (day*1440 + hour*60 + minute) forward by exactly m, giving a valid datetime with the same seconds and microseconds. It is an OverflowError exactly when the result would pass 9999-12-31 |
| RequestOptions.AddMinutesSameDay | examples/demoapps/util/RequestOptions.py:215-216 | Minutes that stay before midnight move only the hour and minute |
| RequestOptions.SubtractDays | examples/demoapps/util/RequestOptions.py:204-208 | Going back n days succeeds iff the result is not before 0001-01-01, and it then moves only the date |
| RequestOptions.PreviousTradingDayProperties | examples/demoapps/util/RequestOptions.py:204-208 | The latest weekday before today is 1 to 3 days back, and it is unique |
| RequestOptions.NoThreeWeekendDays | examples/demoapps/util/RequestOptions.py:206-208 | Of three days in a row, one is a weekday |
| RequestOptions.ComputeDefaultStartAndEndDateTime | examples/demoapps/util/RequestOptions.py:202-218 | The start is the latest weekday before today at 14:30:00, keeping today's microseconds. The bar window ends 60 minutes later and the tick window 5 minutes later. It fails only when today is 0001-01-01 |
| RequestOptions.OverrideFor | examples/demoapps/util/RequestOptions.py:20-23 | `-O` succeeds iff the text holds "=". The field id is the text before the first "=", and `fieldId=value` gives back the text |
| RequestOptions.OverrideRoundTrip | examples/demoapps/util/RequestOptions.py:20-23 | A field id without "=" and any value, "=" included, are read back from `fieldId=value` |
| RequestOptions.Options.constructor | examples/demoapps/util/RequestOptions.py:17-23 | The parser defaults: every list is empty, and there is no start or end |
| RequestOptions.Options.OverridesAction | examples/demoapps/util/RequestOptions.py:17-23 | Exactly one override is appended, or an IndexError is raised with nothing changed. No other option changes |
| RequestOptions.Options.SetDefaultValues | examples/demoapps/util/RequestOptions.py:167-199 | Only options left empty get the defaults for the request type, and options the user gave are never changed. A missing start becomes the previous trading day at 14:30:00 with today's microseconds. A missing end, even when the user gave the start, becomes that day at 15:30:00 for bar requests and 14:35:00 otherwise. It fails only when a bound is missing and today is 0001-01-01 |
| RequestOptions.Options.SetDefaultWindow | examples/demoapps/util/RequestOptions.py:189-199 | The default window is computed only when the start or the end is missing, and it fills only the missing one: the start with the previous trading day at 14:30:00, the end with that day at 15:30:00 (bar) or 14:35:00 (tick), both with today's microseconds. It fails only when today is 0001-01-01 |
| RequestOptions.DefaultWindowLength | examples/demoapps/util/RequestOptions.py:203-218 | When both bounds are defaulted they fall on the same previous trading day, and the end is 60 minutes after the start for bar requests and 5 minutes after it otherwise |
| AppConfig.AuthFor | examples/mock-test-examples/market-data-notifier/src/appconfig.py:8-52 | An invalid text raises "Invalid auth option". The option is None iff the text is "none", and the manual record appears only for "manual" |
| AppConfig.AcceptedTexts | examples/mock-test-examples/market-data-notifier/src/appconfig.py:10-50 | Accepted are exactly: "user", "none", app/userapp/dir with "=value", and "manual=" with three comma-separated parts |
| AppConfig.ValueKept | examples/mock-test-examples/market-data-notifier/src/appconfig.py:11-32 | app, userapp and dir keep everything after the first "=", later "=" signs included, appended to their fixed prefix |
| AppConfig.ManualKept | examples/mock-test-examples/market-data-notifier/src/appconfig.py:33-48 | `manual=app,ip,user` puts the application into the option string and the IP and user into the manual record |
| AppConfig.ManualAccepted | examples/mock-test-examples/market-data-notifier/src/appconfig.py:33-48 | Any "manual=" text with three comma-separated parts is accepted, with parts 0, 1 and 2 as application, IP and user |
| AppConfig.UserIsWholeText | examples/mock-test-examples/market-data-notifier/src/appconfig.py:14-50 | "user" gives the OS logon option, and "user=x" is refused |
| PyValues.Lookup | src/blpapi/ffi_utils.c:193-195 | A key is found iff some entry of the dict has it |
| PyValues.DictSetLookup | src/blpapi/ffi_utils.c:193-195 | After `d[k] = v`, k maps to v, every other key keeps its value, and the dict grows by one entry iff k was new |
| PyValues.DictSetKeepsKeysUnique | src/blpapi/ffi_utils.c:193-195 | Setting a key keeps every key in the dict at most once |
| PyValues.DictFromPairsKeysUnique | src/blpapi/ffi_utils.c:180-198 | The dict built by the sub-element loop holds each key once |
| PyValues.DictFromPairsKeys | src/blpapi/ffi_utils.c:180-198 | The built dict has a key iff some sub-element has that name |
| PyValues.DictFromPairsLastWins | src/blpapi/ffi_utils.c:180-198 | When a name repeats, the last sub-element with that name gives its value |

## Left out

- Threading: the global interpreter lock taken in `managerFunc` and `incref` (src/blpapi/ffi_utils.c:290-292,304,318) is not modelled. COPY and DESTROY are sequential updates of a reference-count ledger.
- The CPython object API: dict, list, str and bytes construction are value construction. Memory exhaustion inside `PyDict_New`, `PyList_New` or `PyUnicode_FromString` is not modelled.
- The lazily initialised `datetime` module cache (src/blpapi/ffi_utils.c:102-132) is a foreign import. Its conversion is a total function of the model.
- Floating-point values pass through unchanged. IEEE semantics, including NaN comparisons and float32 widening, are not modelled.
- The engine behind the C API is an oracle. Elements are datatypes of what its accessors report, and its calls are parameters that return codes. No engine behaviour beyond those codes is modelled.
- The session, publishing, schema, message and diagnostics layers are thin wrappers over the engine and are not part of this model. Neither are the ctypes trampolines, the declaration-only modules, or the Python 2 copies under `blpapi/` other than `blpapi/datetime.py`.
- `datetime.now()` and `datetime.today()` are parameters (`now`, `today`). Python's `datetime` is modelled by its field ranges, the proleptic Gregorian calendar and exact integer microseconds only.
- Output: `printEvent`, `print` and every other write to a stream are not modelled.
- ElementFromPy.RoundTrip: covers booleans, in-range integers, floats, strings, bytes, None, mappings and lists, but not datetimes. A datetime goes through `convertToBlpapi`, whose own round trip is `DatetimeUtil.ConvertedRoundTrip`.
- ElementFromPy.RoundTrip: a mapping is read back in the order its keys were given. The engine lists sub-elements in schema order, and Python dicts compare without regard to order.
- ElementFromPy.SetCallFor: the setter is chosen by the Python type. Which conversions the engine then accepts for a given data type is limited to the exact pairs in `StoreValue`.
- PyElement.ValuesContainExists: membership compares model values. Python's `1 == True` and `1 == 1.0` are not modelled.
- PyElement.ItemEquals: a sub-Element compared with a Name item is unequal. The source compares the Name's handle value with the Element's handle value, and such a pointer coincidence is not modelled. Python's identity shortcut in `in` is not modelled either.
- PyElement.GetItem: an integer index is a natural number. A negative Python int, which the engine rejects, is not modelled.
- EventFormatter.AppendMessageOf: the topic, correlation id and time arguments of `appendMessage` and `appendRecapMessage` only reach the engine. The model records the call and the `latestMessageName` bookkeeping.
- EventFormatter.FromPyBalanced: after an error, the path deque keeps the entries pushed before the failure. Which entries these are is not stated.
- Utils.EnumClass.SetAttr: `isupper` is modelled on ASCII letters only. Unicode case is not modelled.
- Logging.Logger.RegisterCallback: `loggerCallbacksLocal` is a class attribute shared by all loggers. It is modelled as a field of one `Logger`.
- Handles.CreateWithUser: `AuthUser` and its constructors are not part of this model. The user's handle is already inside the options handle the engine returns.
- Handles.CreateWithApp: `createWithUserAndApp` makes the same checks with one more engine argument and is folded into `CreateWithApp`.
- Handles.CreateWithApp: when creating the options fails after the app handle was made, the source raises without releasing the app handle, so it leaks. The model returns the error and does not track that handle.
- ConnectionAndAuthOptions.Args.HostAction: `parser.error` prints usage and exits. It is modelled as a `ParserError` result that leaves the namespace unchanged.
- ConnectionAndAuthOptions.ParseHostPort: a non-numeric port makes `int()` raise ValueError. This is modelled as a `ValueError` result, not as an exception escaping argparse.
- RequestOptions.ComputeDefaultStartAndEndDateTime: `today` is a naive datetime given as a parameter. Time zones are not modelled.
- SessionRouter.Router.HandleException: the source iterates the live `_exceptionHandlers` list, so an exception handler appended by an exception handler during that loop would also be called. The model iterates the list as it was when the exception was caught, because a handler that keeps appending would make the loop endless.
- SessionRouter.Router.ProcessEvent: what a handler does is an input, namely whether it raises and the table changes it makes through the router's `add*` and `remove*` methods. Anything else a handler does is not modelled. That includes session calls, output, and calling `processEvent` again from inside a handler.
- DecodeOwnership.ComplexToPyRefs: sub-element names are assumed distinct, as a schema's field names are. When two sub-elements share a name, `PyDict_SetItem` replaces the first value and releases the reference the dict held to it. That release is not modelled.
- DecodeOwnership.ResetBalancesCounts: holds under the same assumption of distinct sub-element names.
- MessageFormatter.SetElementCall: the TypeError text in the source includes the value's `repr` and its type. The model keeps the fixed sentence only, because the `repr` of an arbitrary unregistered object is not modelled.
- ConnectionAndAuthOptions.ParseHostPortAccepts: digits and white space are ASCII only (`Text.IsDigit`, `Text.IsSpace`). Python's `int()` also accepts other Unicode decimal digits and white space, so such a port is rejected by the model but accepted by the source.

## Findings

| source | as written | input that shows it | evidently intended | confidence | as-written member | corrected member |
|---|---|---|---|---|---|---|
| blpapi/datetime.py:147-149 | The legacy `convertToBlpapi` stores the offset as `offset.seconds // 60`, which drops the timedelta's `days` | A time zone of UTC-5 has the offset `timedelta(days=-1, seconds=68400)`, so 1140 is stored instead of -300 | The offset in minutes, `getOffsetInMinutes` of the same file (days*1440 + seconds//60) | not executed | LegacyDatetimeUtil.NegativeOffsetStoredAsWritten | LegacyDatetimeUtil.RoundTripToMillis |
| src/blpapi/ffi_utils.c:183-202 | On the ERROR path, `complexElementToPy` releases the dict and then `subElementPy`, which still names a sub-value already released and stored in the dict | A sequence whose first sub-element converts and whose `getElementAt(1)` fails: that sub-value's count ends at -1 | Reset `subElementPy` to NULL once it is stored and released | not executed | DecodeOwnership.ComplexDoubleReleaseAsWritten | DecodeOwnership.ResetBalancesCounts |
| src/blpapi/ffi_utils.c:231-259 | On the ERROR path, `arrayElementToPy` releases the list and then `pyValue`, which still names a value the list owns | A complex array whose slot 0 converts and whose `getValueAsElement(1)` fails: slot 0's count ends at -1 | Reset `pyValue` to NULL once `PyList_SetItem` has taken it | not executed | DecodeOwnership.ArrayDoubleReleaseAsWritten | DecodeOwnership.ResetBalancesCounts |
| src/blpapi/exception.py:31-33 | `__str__` formats the error code with `#010x`, which fails for a code of None | `Element.elements()` on a non-sequence raises UnsupportedOperationException with `errorCode=None` (src/blpapi/element.py:688-691); `str()` of it raises TypeError | The description alone when there is no code | not executed | Exceptions.StrAsWritten | Exceptions.Str |
| src/blpapi/auth.py:19-24 | `AuthOptions` keeps its handle in `self.__handle`, which Python mangles to a different attribute from the base `CHandle`'s, so the inherited `_handle()` reads a field `destroy` never clears | `get_handle` on an `AuthOptions` after `destroy()` yields the options handle that was just released | `_handle()` yields the options handle, None after `destroy` | not executed | Handles.DestroyedHandleStillHandedOut | Handles.DestroyedHandleWithdrawn |
