# mod_bmx in Dafny

mod_bmx is an Apache httpd module that publishes server metrics as "beans".
A bean is a domain-qualified objectname (`domain:key=value,...`) plus an
ordered list of typed properties. A GET to the `bmx-handler` carries a query
such as `query=mod_bmx_vhost:Type=forever`. The handler parses it into an
objectname. It then runs every provider's query hook, and each hook prints,
as plain text, the beans whose objectname the query matches.

This project models the core of that system and proves what it promises.
The core is the handler, parser, matcher and printer of `mod_bmx.c`, the
data model of `mod_bmx.h`, and three providers:

- `mod_bmx_vhost.c` keeps per-virtual-host request and response counters in
  a DBM file. The counters cover three windows: forever, since start and
  since restart. The DBM is guarded by a global mutex.
- `mod_bmx_status.c` summarises the scoreboard.
- `mod_bmx_example.c` publishes one fixed bean.

Modules:

- `AprTable` holds the `apr_table_t` of objectname constraints.
- `Decimal` prints integers and reads them back.
- `Bmx` is the data model, including the `Bean` class with its property
  ring.
- `Matcher` is `bmx_check_constraints`.
- `QueryParser` is `parse_query`.
- `ObjectnameFormat` is `bmx_objectname_strlen` and `bmx_objectname_str`.
  The second is imperative, writing over a `char` array.
- `TextPlain` is `property_print` and the plain-text printer.
- `RoundTrip` shows that a rendered objectname parses back.
- `Handler` is `bmx_handler`.
- `VhostCounters` is the timespan arithmetic.
- `VhostNames` covers keys, objectnames, the info bean and the address
  strings.
- `VhostStore` is the DBM, the mutex, `post_config` and `log_transaction`.
  The DBM and mutex are a `Dbm` class, and every APR call's status is an
  input.
- `VhostQuery` is `process_vhost_query` and the query hook.
- `BmxStatus` is the scoreboard walk and the status bean.
- `BmxExample` is the example provider.

Code that works step by step is written as methods with loops or as class
methods: the table walks, the buffer writes, the DBM critical sections, the
scoreboard walk and the hook loops. Each method is proved equal to a
function, and the properties are lemmas about that function.

## Model

| member | source | states |
|---|---|---|
| AprTable.Set | modules/bmx/mod_bmx.c:454-457 | After setting key k, k maps to the new value and every other key's lookup is unchanged. Distinct keys stay distinct. An absent key is appended at the end. |
| AprTable.Get | modules/bmx/mod_bmx.c:358-371 | A lookup finds a value exactly when some entry carries the key. |
| Decimal.DecRoundTrip | modules/bmx/mod_bmx.c:72-106 | The digits printed for a non-negative integer read back as that integer. |
| Decimal.SignedRoundTrip | modules/bmx/mod_bmx.c:72-106 | The signed decimal printed for any integer reads back as that integer. |
| Bmx.Wrap64Keeps | modules/bmx/mod_bmx.c:208-220 | Conversion to apr_uint64_t keeps a value that fits. Any other value becomes the one congruent to it modulo 2^64. |
| Bmx.Wrap32Keeps | modules/bmx/mod_bmx.c:180-192 | The same for apr_uint32_t, modulo 2^32. |
| Bmx.CreateObjectname | modules/bmx/mod_bmx.c:328-335 | A new objectname has the given domain and a present, empty table. |
| Bmx.Bean.Init | modules/bmx/mod_bmx.c:304-309 | A bean starts with the given objectname and an empty property ring. |
| Bmx.Bean.AddProperty | modules/bmx/mod_bmx.c:316-319 | The property goes at the tail of the ring. The objectname and the earlier properties are unchanged. |
| Matcher.CheckConstraints | modules/bmx/mod_bmx.c:358-393 | The result is the matching rule. The wildcard matches. A different domain does not. A NULL table matches and an empty table does not. Otherwise the iterator visits entries in order and stops at the first one the candidate lacks. The result is true iff every entry was found. |
| Matcher.Select | modules/bmx/mod_bmx.c:373-393 | On a provider's objectname, bmx_check_constraints decides exactly the matching rule. |
| Matcher.MatchesIffSubset | modules/bmx/mod_bmx.c:373-393 | With a present table, a query matches iff its table is non-empty and, read as a map, is contained in the candidate's table. |
| Matcher.ConflictingConstraintFails | modules/bmx/mod_bmx.c:358-371 | Adding a constraint the candidate does not carry makes the match fail. |
| Matcher.MatchIgnoresTableOrder | modules/bmx/mod_bmx.c:358-393 | Two constraint tables with the same map view select the same objectnames. |
| QueryParser.Scan | modules/bmx/mod_bmx.c:399-422 | When sscanf converts both fields, the domain is non-empty, has no ':' and has at most 128 characters. The constraint word is non-empty, has no whitespace and has at most 1024 characters. |
| QueryParser.LongDomainRejected | modules/bmx/mod_bmx.c:401-422 | A domain run longer than the 128-character field width makes parse_query return APR_EINVAL. |
| QueryParser.DomainBufferOverflow | modules/bmx/mod_bmx.c:399-422 | As written: "query=" followed by 128 characters, ':' and "x" is accepted, and its domain is stored in 129 bytes, one more than the 128-byte buffer. |
| QueryParser.ConstraintsBufferOverflow | modules/bmx/mod_bmx.c:399-422 | As written: a 1024-character constraint word is accepted and stored in 1025 bytes, one more than the 1024-byte buffer. |
| QueryParser.ScanFitsBuffers | modules/bmx/mod_bmx.c:399-422 | Corrected: with buffers one byte longer than the field widths, whatever sscanf stores always fits. |
| QueryParser.Tokens | modules/bmx/mod_bmx.c:444-446 | apr_strtok yields non-empty tokens with no ','. |
| QueryParser.SplitToken | modules/bmx/mod_bmx.c:447-458 | A token splits at its first '=' into a key without '=' and the rest. A token without '=' gives the value "". |
| QueryParser.ParseConstraints | modules/bmx/mod_bmx.c:429-460 | The tokenizing loop builds exactly the constraint table: NULL for "*" or "*&...", otherwise apr_table_set of each token in turn. Its keys are distinct. |
| QueryParser.ParseQuery | modules/bmx/mod_bmx.c:403-468 | Returns APR_SUCCESS with exactly the query the args denote, or APR_EINVAL with none. Absent or empty args and exactly "query=*:*" give the wildcard. |
| QueryParser.ScanAccepts | modules/bmx/mod_bmx.c:399-422 | A text of the accepted shape scans to its domain and first word. The shape is "query=", a domain of at most 128 characters without ':', ':', optional space, then a word of at most 1024 characters. The word ends at whitespace or at its 1024th character. |
| QueryParser.ScanShape | modules/bmx/mod_bmx.c:399-422 | Conversely, every text that scans has that shape, with the scanned parts. |
| QueryParser.EinvalIffMalformed | modules/bmx/mod_bmx.c:409-465 | parse_query fails exactly on non-empty args that are not the shortcut and lack the accepted shape. Both directions are proved. |
| QueryParser.LastDuplicateWins | modules/bmx/mod_bmx.c:444-459 | In a parsed table every key holds the value of its last token. A key that no token names is absent. |
| QueryParser.StarQueryWithSuffix | modules/bmx/mod_bmx.c:415-432 | "query=*:*&x" is not the shortcut. It names the domain "*" with a NULL table. |
| QueryParser.DomainStarHasNoTable | modules/bmx/mod_bmx.c:430-432 | "query=<domain>:*" gives that domain with a NULL table, for any domain that fits the field width. |
| ObjectnameFormat.PairsSnoc | modules/bmx/mod_bmx.c:551-571 | An entry added at the end of the table adds ",key=value" to the text, or "key=value" when the table was empty. |
| ObjectnameFormat.ObjectnameStrlen | modules/bmx/mod_bmx.c:500-543 | The computed size is the length of the rendered text. |
| ObjectnameFormat.Emit | modules/bmx/mod_bmx.c:551-571 | One snprintf with room writes the piece and then a NUL. The rest of the buffer is untouched. |
| ObjectnameFormat.WritePairs | modules/bmx/mod_bmx.c:551-571 | The table walk writes the pairs text followed by a NUL. Nothing else changes. |
| ObjectnameFormat.WriteDomain | modules/bmx/mod_bmx.c:573-598 | Writes "domain:" or "*:" at the start of the buffer. Nothing else changes. |
| ObjectnameFormat.ObjectnameStr | modules/bmx/mod_bmx.c:573-598 | Returns the rendered length. The buffer then holds the rendered text. A NUL follows only when pairs were written. The rest of the buffer is as it was. |
| TextPlain.AsInt32 | modules/bmx/mod_bmx.c:72-106 | An unsigned int printed with "%d" is its bits read as a signed int: negative exactly from 2^31 up. |
| TextPlain.PrintedIntegersReadBack | modules/bmx/mod_bmx.c:72-106 | A boolean prints "true" iff it is non-zero. Every integer type's text reads back as its value. BYTE and UINT16 append 'u'. UINT32 appends 'u' and reads back modulo 2^32. Strings print as themselves and NULL values as "". |
| TextPlain.PrintProperties | modules/bmx/mod_bmx.c:615-629 | The ring walk prints "key: value" lines in ring order. The value is left out when it is NULL. |
| TextPlain.AddedPropertyPrintsLast | modules/bmx/mod_bmx.c:616-630 | A property added to a bean prints as the last line before the closing empty line. |
| TextPlain.PrintTextPlain | modules/bmx/mod_bmx.c:604-632 | The output is "Name: " and the name, then the property lines, then an empty line. This uses the terminated name buffer. |
| TextPlain.StarNameOverRead | modules/bmx/mod_bmx.c:573-612 | As written: for a name ending in '*', the buffer read back has no NUL unless its last byte happened to be NUL. |
| TextPlain.StarNameOverReadExample | modules/bmx/mod_bmx.c:573-612 | As written: a concrete buffer for "mod_bmx_example:*" whose read runs past its end. |
| TextPlain.ObjectnameStrTerminated | modules/bmx/mod_bmx.c:604-613 | Corrected: with a NUL written at the returned position, the buffer always reads back as the rendered name. |
| RoundTrip.EntryTextSplits | modules/bmx/mod_bmx.c:447-458 | A plain entry's "key=value" has no ',' and splits back into the entry. |
| RoundTrip.TokensOfPairs | modules/bmx/mod_bmx.c:444-446 | Tokenizing rendered pairs yields exactly one "key=value" per entry. |
| RoundTrip.SetTextsAppends | modules/bmx/mod_bmx.c:444-459 | Setting those texts for new distinct keys appends the entries in order. |
| RoundTrip.RenderedConstraints | modules/bmx/mod_bmx.c:429-460 | Rendered pairs of a plain table with distinct keys parse back to that table. |
| RoundTrip.RenderedNotShortcut | modules/bmx/mod_bmx.c:415-419 | The query text of a parsable objectname is never the "query=*:*" shortcut. |
| RoundTrip.ParseRendered | modules/bmx/mod_bmx.c:403-468 | "query=" plus the rendered text of a parsable objectname parses back to that objectname. |
| RoundTrip.StarRendersToNullTable | modules/bmx/mod_bmx.c:430-432 | An objectname printed with "*" parses back with a NULL table. |
| Handler.Handle | modules/bmx/mod_bmx.c:644-683 | DECLINED iff the request is for another handler or is not a GET. A HEAD is OK without running hooks. Malformed args give 400. Hooks run with exactly the parsed query. A failing hook run gives 500, otherwise OK. |
| Handler.MalformedIsBadRequest | modules/bmx/mod_bmx.c:664-672 | A malformed query string on a GET to the handler is a 400. |
| VhostCounters.MethodOf | modules/bmx/mod_bmx_vhost.c:596-614 | GET, POST and PUT are counted, and nothing else. A header-only GET counts as HEAD. |
| VhostCounters.StatusOf | modules/bmx/mod_bmx_vhost.c:616-645 | Exactly the statuses 200, 301, 302, 401, 403, 404 and 500 have a counter pair. |
| VhostCounters.CountMethod | modules/bmx/mod_bmx_vhost.c:596-614 | The method switch adds the method part of the transaction's delta. |
| VhostCounters.CountStatus | modules/bmx/mod_bmx_vhost.c:616-645 | The status switch adds the status part. Bytes sent are the request's count, or the last response's when that is zero. |
| VhostCounters.TimespanUpdate | modules/bmx/mod_bmx_vhost.c:593-652 | Updating a timespan adds exactly the transaction's delta. |
| VhostCounters.UpdateByBucket | modules/bmx/mod_bmx_vhost.c:593-652 | A method pair grows by the read length and one request iff the transaction counts under it. A status pair grows by the bytes sent and one response iff the status is its own. The totals always grow. StartTime stays. |
| VhostCounters.UpdateIsMonotone | modules/bmx/mod_bmx_vhost.c:593-652 | No counter ever decreases. |
| VhostCounters.UpdateKeepsTotalsCover | modules/bmx/mod_bmx_vhost.c:647-651 | Totals that cover their per-method and per-status breakdowns keep covering them. |
| VhostCounters.UpdatesCommute | modules/bmx/mod_bmx_vhost.c:593-652 | The order in which two transactions are counted does not matter. |
| VhostCounters.RepeatIsScale | modules/bmx/mod_bmx_vhost.c:593-652 | n transactions with the same delta add n times that delta. |
| VhostCounters.DataUpdate | modules/bmx/mod_bmx_vhost.c:657-663 | The transaction is counted in all three windows. |
| VhostCounters.AddAllKeepsNested | modules/bmx/mod_bmx_vhost.c:657-663 | Logging keeps since-restart within since-start within forever. |
| VhostCounters.ResetKeepsNested | modules/bmx/mod_bmx_vhost.c:556-574 | A reset keeps the windows nested, restarts since-restart, and keeps forever. |
| VhostNames.GlobalKeyDiffers | modules/bmx/mod_bmx_vhost.c:353-381 | No vhost key is the global key. |
| VhostNames.KeyEndsWithPort | modules/bmx/mod_bmx_vhost.c:353-362 | The last ':' of a key is the one before the port's digits. |
| VhostNames.VhostKeyInjective | modules/bmx/mod_bmx_vhost.c:353-362 | A key names exactly one host and port, even when the host contains ':'. |
| VhostNames.AsShort | modules/bmx/mod_bmx_vhost.c:515-519 | A port stored in a `short` keeps its value, or loses 2^16. |
| VhostNames.ShortDecimalDiffers | modules/bmx/mod_bmx_vhost.c:328-343 | As written: the "%d" of a `short` port agrees with the port below 32768 and is negative from 32768 up. |
| VhostNames.PortText | modules/bmx/mod_bmx_vhost.c:339-340 | Corrected: the Port constraint is "_ANY_" iff the port is 0, and otherwise the port's decimal digits. |
| VhostNames.HighPortShownNegative | modules/bmx/mod_bmx_vhost.c:328-343 | As written, port 40000 is shown as "-25536". Corrected, it is shown as "40000". |
| VhostNames.VhostTableIs | modules/bmx/mod_bmx_vhost.c:336-340 | Corrected port text: the objectname table is exactly Type, Host, Port, in that order. |
| VhostNames.WindowObjectname | modules/bmx/mod_bmx_vhost.c:328-343 | Corrected port text: a window objectname has domain mod_bmx_vhost and the window's name, host and port. |
| VhostNames.WindowObjectnamesUnique | modules/bmx/mod_bmx_vhost.c:328-343 | Different windows, hosts or ports give different objectnames. |
| VhostNames.VhostScfg | modules/bmx/mod_bmx_vhost.c:515-533 | Corrected port text: a vhost's three window objectnames are named by its host and port, and its key is its vhost key. |
| VhostNames.GlobalScfg | modules/bmx/mod_bmx_vhost.c:364-381 | The global objectnames use host _GLOBAL_ and port 0, and the key is the global key. |
| VhostNames.JoinAppend | modules/bmx/mod_bmx_vhost.c:442-454 | Joining two non-empty lists puts one separator between their joins. |
| VhostNames.ServerAliases | modules/bmx/mod_bmx_vhost.c:442-454 | The ServerAlias names, then the wildcard names, joined with ','. A NULL list contributes nothing. |
| VhostNames.AliasesConcatenate | modules/bmx/mod_bmx_vhost.c:442-454 | With both lists present, the text is the names' text, a ',', and the wildcard names' text. |
| VhostNames.TextFitsBudget | modules/bmx/mod_bmx_vhost.c:390-413 | The measuring pass gives 0 iff no address is listed, and the printed text always fits the measured size. |
| VhostNames.PrintAddress | modules/bmx/mod_bmx_vhost.c:417-430 | One sprintf extends the buffer's text to the next address prefix's text, within the budget. |
| VhostNames.ListenAddresses | modules/bmx/mod_bmx_vhost.c:390-433 | The result is the listed addresses' "host:port" joined with ',', within the measured size. It is "" when none is listed. |
| VhostNames.ServerName | modules/bmx/mod_bmx_vhost.c:476-482 | Corrected port text: "" without a host. Otherwise the host, followed by ":port" exactly when the port is non-zero. |
| VhostNames.ServerNameLikeListenEntry | modules/bmx/mod_bmx_vhost.c:476-482 | With a non-zero port, ServerName reads exactly like the host's entry in the listen-address string. |
| VhostNames.InfoObjectname | modules/bmx/mod_bmx_vhost.c:491-496 | Corrected port text: the info objectname is Type=info, Host and Port in the mod_bmx_vhost domain. |
| VhostNames.InfoIsNoWindow | modules/bmx/mod_bmx_vhost.c:491-496 | No info objectname equals any window objectname. |
| VhostNames.AddInfoProperties | modules/bmx/mod_bmx_vhost.c:500-505 | Appends ServerName, ServerAliases and ListenAddresses, in order. |
| VhostNames.CreateInfoBean | modules/bmx/mod_bmx_vhost.c:465-506 | Corrected port text: the bean is the info objectname with those three properties, built from the server record. |
| VhostStore.Dbm.Lock | modules/bmx/mod_bmx_vhost.c:1104-1110 | The mutex is held exactly when locking succeeds. The records are unchanged. |
| VhostStore.Dbm.Unlock | modules/bmx/mod_bmx_vhost.c:1182-1188 | The mutex is released exactly when unlocking succeeds. |
| VhostStore.Dbm.Open | modules/bmx/mod_bmx_vhost.c:1112-1119 | The DBM is open exactly when opening succeeds. |
| VhostStore.Dbm.Close | modules/bmx/mod_bmx_vhost.c:1179-1180 | The DBM is closed and the records are unchanged. |
| VhostStore.Dbm.Fetch | modules/bmx/mod_bmx_vhost.c:1121-1128 | A successful fetch yields the stored value, or NULL for a missing key. A failed fetch yields nothing. |
| VhostStore.Dbm.Store | modules/bmx/mod_bmx_vhost.c:1161-1168 | A successful store replaces the key's value. A failed store changes nothing. |
| VhostStore.VhostDataReset | modules/bmx/mod_bmx_vhost.c:539-587 | The DBM ends exactly as the reset function says, and the status is the fetch's or the store's. |
| VhostStore.ResetEffect | modules/bmx/mod_bmx_vhost.c:539-587 | A failed fetch or store changes nothing. Otherwise the key holds a record with a fresh since-restart window (and a fresh since-start at startup). That record keeps a previous record's forever window, and since-start too when not at startup. No other key changes. |
| VhostStore.ResetAllEffect | modules/bmx/mod_bmx_vhost.c:1063-1076 | When every call succeeds, every reset key is restarted and keeps its forever window. No other key changes. |
| VhostStore.ResetKeys | modules/bmx/mod_bmx_vhost.c:1063-1076 | post_config resets every vhost's key in server order, then the global key. |
| VhostStore.ResetVhosts | modules/bmx/mod_bmx_vhost.c:1063-1071 | The loop resets each vhost's record in turn, keeping the last status. |
| VhostStore.ResetAllVhosts | modules/bmx/mod_bmx_vhost.c:1063-1076 | The vhost loop is followed by the global record's reset. |
| VhostStore.PostConfig | modules/bmx/mod_bmx_vhost.c:987-1081 | A DBM open failure, or a mutex creation failure, gives 500. The preflight pass changes nothing. Otherwise all records are reset. The DBM always ends closed. |
| VhostStore.PostConfigEffect | modules/bmx/mod_bmx_vhost.c:1046-1076 | Preflight leaves the DBM as it was. A later pass restarts every vhost record and the global record, keeping their forever windows. Since-start is restarted only at startup. |
| VhostStore.FindLast | modules/bmx/mod_bmx_vhost.c:1096-1099 | Following r->next reaches the last request of the chain. |
| VhostStore.Release | modules/bmx/mod_bmx_vhost.c:1192-1199 | The cleanup closes the DBM if it was opened, then unlocks. The records are unchanged. |
| VhostStore.LogTransaction | modules/bmx/mod_bmx_vhost.c:1083-1200 | Status and DBM contents are exactly those of the logging function. The DBM always ends closed. The mutex stays held only when locking succeeded and unlocking failed. |
| VhostStore.LogSucceeds | modules/bmx/mod_bmx_vhost.c:1083-1200 | The log is OK iff every call succeeds and the global record exists. Otherwise it is 500. Any failure before the vhost store leaves the DBM unchanged. |
| VhostStore.LogCountsOnce | modules/bmx/mod_bmx_vhost.c:1130-1176 | The vhost record gets the transaction in all three windows, counted from zero when it had no record. The global record gets it too unless its store fails. No other key changes. |
| VhostStore.LogNeverDecreases | modules/bmx/mod_bmx_vhost.c:1157-1176 | Logging never removes a record and never decreases a counter. |
| VhostStore.LogKeepsNested | modules/bmx/mod_bmx_vhost.c:1157-1176 | Logging keeps every record's windows nested. |
| VhostStore.LogsCommute | modules/bmx/mod_bmx_vhost.c:1104-1188 | Two successful critical sections give the same DBM in either order. |
| VhostStore.CountsCommute | modules/bmx/mod_bmx_vhost.c:1157-1176 | Counting two transactions, into the same or different vhosts and the global record, commutes. |
| VhostQuery.AddInBytes | modules/bmx/mod_bmx_vhost.c:678-689 | Appends InBytesGET, HEAD, POST and PUT, in order. |
| VhostQuery.AddInRequests | modules/bmx/mod_bmx_vhost.c:691-702 | Appends InRequestsGET, HEAD, POST and PUT, in order. |
| VhostQuery.AddOutBytes | modules/bmx/mod_bmx_vhost.c:704-724 | Appends OutBytes200 through OutBytes500, in order. |
| VhostQuery.AddOutResponses | modules/bmx/mod_bmx_vhost.c:726-746 | Appends OutResponses200 through OutResponses500, in order. |
| VhostQuery.AddTotals | modules/bmx/mod_bmx_vhost.c:748-760 | Appends InLowBytes, OutLowBytes, InRequests and OutResponses, in order. |
| VhostQuery.PrintVhostBean | modules/bmx/mod_bmx_vhost.c:668-775 | The bean is the 26 counters, then StartDate, StartTime and StartElapsed (now minus StartTime). |
| VhostQuery.Selected | modules/bmx/mod_bmx_vhost.c:794-798 | A window is selected iff the query matches its objectname. |
| VhostQuery.QueryResultShape | modules/bmx/mod_bmx_vhost.c:786-878 | The status is OK, DECLINED or 500. It is OK iff beans were printed, and DECLINED iff no window matches. |
| VhostQuery.BeansSnoc | modules/bmx/mod_bmx_vhost.c:849-865 | One more selected window appends its bean. |
| VhostQuery.PrintIf | modules/bmx/mod_bmx_vhost.c:849-865 | A set flag appends that window's bean. |
| VhostQuery.PrintSelected | modules/bmx/mod_bmx_vhost.c:849-865 | The beans of the flagged windows are printed in window order. |
| VhostQuery.ProcessVhostQuery | modules/bmx/mod_bmx_vhost.c:786-878 | The result is exactly the query function's. The DBM is not touched when nothing is selected. It is read but never changed, and always ends closed. The mutex stays held only when unlocking fails. |
| VhostQuery.QueryVhost | modules/bmx/mod_bmx_vhost.c:898-916 | One vhost: its windows' result, then its info bean if the query matches. |
| VhostQuery.QueryHook | modules/bmx/mod_bmx_vhost.c:884-919 | The global record first, then every vhost, stopping at the first failure. The result is exactly the hook function's. |
| VhostQuery.VisitShape | modules/bmx/mod_bmx_vhost.c:898-918 | From a consistent start the loop ends OK with beans, DECLINED with none, or 500. |
| VhostQuery.HookShape | modules/bmx/mod_bmx_vhost.c:884-919 | The hook returns OK only with beans and DECLINED only without, and otherwise 500. |
| BmxStatus.StatusObjectname | mod_bmx_status.c:338-344 | mod_bmx_status with Name=ServerStatus, then Type Extended or Normal. |
| BmxStatus.ServerStatusQueryMatches | mod_bmx_status.c:338-344 | A query naming Name=ServerStatus, or the current Type, matches. A query naming the other Type does not. |
| BmxStatus.ScanWorker | mod_bmx_status.c:163-220 | One worker slot is counted exactly as one step of the walk. |
| BmxStatus.ScanProcess | mod_bmx_status.c:162-222 | The inner loop tallies the process's workers in order. |
| BmxStatus.ScanScoreboard | mod_bmx_status.c:155-222 | The outer loop tallies every process slot in order. |
| BmxStatus.CarryStep | mod_bmx_status.c:213-219 | The kilobyte carry keeps kbcount*1024+bcount and brings bcount below 1024. |
| BmxStatus.TallyCounts | mod_bmx_status.c:169-178 | ready counts current-generation READY workers of live processes. busy counts their other non-dead, non-starting, non-idle-kill workers. |
| BmxStatus.TallyCarry | mod_bmx_status.c:183-220 | After the walk, bcount is below 1024 and kbcount*1024+bcount is the accumulating workers' byte total. count is their access total. |
| BmxStatus.ReadyBusyDisjoint | mod_bmx_status.c:169-178 | No worker is counted as both ready and busy. |
| BmxStatus.ReadyBusyBound | mod_bmx_status.c:155-178 | ready+busy is at most the live slots, and so at most server_limit*thread_limit. |
| BmxStatus.NoExtendedNoTraffic | mod_bmx_status.c:183-221 | Without extended status, count, bcount and kbcount stay zero. |
| BmxStatus.TimeSec | mod_bmx_status.c:232-234 | apr_time_sec truncates microseconds to whole seconds. |
| BmxStatus.AddServerProperties | mod_bmx_status.c:236-259 | Appends the seven server properties, in order. |
| BmxStatus.AddExtendedProperties | mod_bmx_status.c:261-293 | Appends the totals, the per-second rates when uptime is positive, and KilobytesPerReq when count is positive. |
| BmxStatus.AddWorkerProperties | mod_bmx_status.c:295-298 | Appends BusyWorkers then IdleWorkers. |
| BmxStatus.PrintStatusBean | mod_bmx_status.c:152-302 | The bean is the server properties, the extended ones when enabled, then the worker counts. |
| BmxStatus.StatusQueryHook | mod_bmx_status.c:93-307 | The result is exactly the hook function's: match, walk the scoreboard, print one bean. |
| BmxStatus.StatusHookOutcome | mod_bmx_status.c:137-307 | DECLINED iff no match. 500 without a bean iff there is no scoreboard. Otherwise OK with one bean under the objectname, starting with the server properties and ending with the worker counts. |
| BmxStatus.RatesGuarded | mod_bmx_status.c:261-293 | ReqPerSec and KilobytesPerSec appear iff extended and uptime > 0. KilobytesPerReq appears iff extended and count > 0. TotalAccesses appears iff extended. |
| BmxExample.ExampleObjectname | modules/bmx/mod_bmx_example.c:96-98 | mod_bmx_example with Type=BMXExampleModule then Something=Else. |
| BmxExample.ExampleProperties | modules/bmx/mod_bmx_example.c:104-125 | Eleven properties, from SomeBool to SomeString. |
| BmxExample.AddNarrowSamples | modules/bmx/mod_bmx_example.c:104-111 | Appends the boolean, byte and 16-bit samples. |
| BmxExample.AddWideSamples | modules/bmx/mod_bmx_example.c:112-119 | Appends the 32- and 64-bit samples. |
| BmxExample.AddOtherSamples | modules/bmx/mod_bmx_example.c:120-125 | Appends the float, double and string samples. |
| BmxExample.PreConfig | modules/bmx/mod_bmx_example.c:92-132 | The bean built at pre-config is the example objectname with the eleven properties in order. |
| BmxExample.ExampleQueryHook | modules/bmx/mod_bmx_example.c:74-84 | OK iff it printed the bean, and DECLINED iff it printed nothing. |
| BmxExample.ExampleQueries | modules/bmx/mod_bmx_example.c:74-84 | The Type query is answered with the bean. Adding Something=Other is declined. |
| BmxExample.TypeQueryText | modules/bmx/mod_bmx_example.c:96-98 | The Type query renders as "mod_bmx_example:Type=BMXExampleModule". |
| BmxExample.TypeQueryParses | modules/bmx/mod_bmx.c:403-468 | "query=mod_bmx_example:Type=BMXExampleModule" parses to that query. |
| BmxExample.OtherQueryParses | modules/bmx/mod_bmx.c:403-468 | The same text with ",Something=Other" parses to the other query. |

## Left out

- Logging (ap_log_error and ap_log_rerror) is left out, as are the content type the handler sets and the configuration directives `BMXVHostDBMFilename` and `BMXVHostDBMLockFilename`.
- Allocation is left out: pools, apr_palloc and apr_pstrdup. Strings are values.
- The APR table is modelled as an insertion-ordered list of entries with exact key comparison. APR compares keys case-insensitively. apr_table_setn and apr_table_set are not told apart.
- The DBM file, its names, the `chown` of its files and the global mutex are abstract. Each APR call's status is an input, so every pattern of success and failure is covered.
- Concurrency between server processes is modelled as one critical section after another (VhostStore.LogsCommute). The mutex is a flag.
- VhostStore.LogTransaction and VhostQuery.ProcessVhostQuery require that every value in the DBM is a whole `struct vhost_data` (WellSized). The C code copies `dsize` bytes from the value, which is only meaningful at that size.
- VhostStore.PostConfig takes the pass as an input: preflight, first start or restart. The pool userdata and the generation query that decide it are left out. Failure to set the mutex permissions is left out.
- `apr_time_now`, `ap_ht_time` and the `"%f"` conversion are parameters. Floating-point values and rates are exact reals or integer quotients, not single-precision results.
- VhostStore.ResetAll, VhostStore.PostConfig, VhostStore.PostConfigEffect, VhostQuery.Beans and VhostQuery.QueryResult take one `now` for every clock reading. The C code reads `apr_time_now` once per vhost_data_reset call (mod_bmx_vhost.c:545) and once per print_vhost_bean call (674). So the model gives every record reset in one pass the same StartTime, and every window printed by one query the same base for StartElapsed. In the program these can differ by the time between calls.
- VhostNames.VhostTable, VhostNames.WindowObjectname, VhostNames.VhostScfg, VhostNames.ServerName, VhostNames.InfoObjectname and VhostNames.CreateInfoBean use the corrected port text of Findings row 2, which is VhostNames.PortText and VhostNames.PortDecimal. For ports from 32768 up, the program as written prints the negative `short` value instead (VhostNames.HighPortShownNegative).
- Objectname tables hold strings, not possibly-NULL pointers. So the `if (key && value)` skips of the strlen and str iterators (mod_bmx.c:507, 559) have no counterpart. No provider modelled here stores a NULL key or value: every Host value is set from a server record whose hostname post_config has filled in.
- The HAVE_TIMES CPU figures of mod_bmx_status (CPUUsage and CPULoadPercent) are left out. So are `stat_buffer`, `pid_buffer` and `status_flags`, which the hook fills but never reports. bmx_status_init, bmx_status_child_init and bmx_vhost_child_init are left out too: they only read limits and re-open the mutex.
- Counters are unbounded. Each counter is converted to apr_uint64_t or apr_uint32_t only when it is printed (Bmx.Wrap64 and Bmx.Wrap32). The C counters wrap when they are stored.
- bmx_vhost_status_hook is left out: it returns OK and everything else in it is compiled out.
- The hook runner of mod_bmx.c (APR_IMPLEMENT_OPTIONAL_HOOK_RUN_ALL) and the generic property constructor are parameters. A BMX_OTHER value is an opaque handle printed by a given function.
- QueryParser.ParseQuery models the parse with buffers of 129 and 1025 bytes, so it does not model the one-byte overwrites of the code as written. Those overwrites are under Findings.
- A C string cannot contain NUL, while the model's strings may. The parse does not treat NUL specially, and RoundTrip.Parsable excludes it from rendered names.
- In parse_query, the branch that turns an empty domain into "*" is not modelled: `%[^:]` needs at least one character, so that branch cannot run.
- The handler's query hooks are called through `runHooks`. Handler.Handle does not print the beans; the providers' hook functions give what each prints.
- VhostQuery.VisitShape: holds from a status that is OK or DECLINED, which is the only way the loop is entered.

## Findings

| source | as written | input that shows it | evidently intended | confidence | as-written member | corrected member |
|---|---|---|---|---|---|---|
| modules/bmx/mod_bmx.c:573-612 | bmx_objectname_str writes "*" for a name without constraints but no NUL after it. bmx_bean_print_text_plain allocates strlen + 1 bytes and prints the buffer as a C string. | The objectname `mod_bmx_example:*` (NULL table) in a buffer whose last byte is not NUL | A NUL after the '*', so the printed name ends at the buffer's end | high, not executed | TextPlain.StarNameOverReadExample | TextPlain.ObjectnameStrTerminated |
| modules/bmx/mod_bmx_vhost.c:328-343 | The port passes through a `short` before "%d" in the Port constraint and the info ServerName. Ports from 32768 up are printed negative. | A vhost on port 40000 gets `Port=-25536` | The port's own decimal, `Port=40000` | high, not executed | VhostNames.HighPortShownNegative | VhostNames.PortText |
| modules/bmx/mod_bmx.c:399-422 | `char domain[MAX_DOMAIN_LEN]` and `char constraints[MAX_CONSTRAINTS_LEN]` are scanned with `%128[^:]` and `%1024s`. A field width counts characters, and the NUL comes on top of them. | `query=` followed by 128 letters, then `:x`. Likewise, a 1024-character constraint word. | Buffers of MAX_LEN + 1 bytes, or widths of MAX_LEN - 1 | high, not executed | QueryParser.DomainBufferOverflow | QueryParser.ScanFitsBuffers |
