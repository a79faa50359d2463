# Laundry card ledger — a Dafny model

The laundry automat keeps a prepaid coin balance per RFID card. Four variants of the Flask
server share one ledger: a `USERS` table (card id → holder name and balance) and an
append-only `logs` table (card id, holder, action text, balance after the action).
Staff register cards (`/add_user`), top them up (`/update_balance`) and charge them
(`/spend`). An ESP32 reader posts scans to `/scan_card`, and the web page polls the
last scanned card from a single-slot cache, `LAST_RFID`.

The model covers:

- **Ledger** (`ledger.dfy`). The register, top-up and spend handlers shared by
  `Clones/19-01-26clone.py`, `cloneWep.py` and `web.py`. Each is a transition function
  on `Store(accounts, log)` that returns the new store and the reply. `stored` says
  whether the log insert went through.
- **Per-variant servers**. Each is a `class Server` whose fields are the two tables and
  the `LAST_RFID` slot. Its methods update the fields in place, and each method is
  proved equal to the transition function that specifies it:
  - `clone_server.dfy` models `Clones/19-01-26clone.py`. A scan with zero coins only
    displays the card; any other scan debits. `/get_last_card` clears the cache.
  - `clone_wep_server.dfy` models `cloneWep.py`. Coins ≤ 0 are refused and coins
    default to 1. Log inserts retry on a locked database. GET `/scan_card` does not
    clear the cache. `/spend_api` answers 410.
  - `web_server.dfy` models `web.py`. The scan only looks the card up, and the GET
    clears the cache.
  - `wep_server.dfy` models `wep.py`. Registration is `INSERT OR IGNORE`. A top-up of
    an unknown card still logs a row, for holder "Unknown". A spend commits the debit
    and its log row together.
- **Retry policy** (`retry.dfy`). The policy of `cloneWep.py`: at most three attempts,
  only "locked" errors are retried, and the back-off grows by 100 ms each time. Each
  attempt's outcome is an input.
- **Whole runs** (`clone_runs.dfy`, `clone_wep_runs.dfy`, `wep_runs.dfy`). Sequences of
  requests against the Clones, `cloneWep.py` and `wep.py` servers. The lemmas prove:
  - conservation of balances (final = initial + credits − accepted debits), in all three;
  - balances stay non-negative, in all three, given non-negative registration balances
    and, in `wep.py`, non-negative top-ups (a negative top-up there is accepted and can
    drive a balance below zero);
  - in the Clones server, the log is append-only and grows by one row per accepted,
    stored request;
  - in the Clones server, a scanned card is handed out by at most one read: of two reads
    with no filling scan between them, the second answers 404.

  `web.py` needs no run module of its own: its form handlers are the Ledger functions,
  whose per-request conservation lemmas are proved, and its POST `/scan_card` changes no
  account and no log row.
- **Firmware names** (`firmware.dfy`). Which uploads are accepted as `.bin` images, and
  the name an upload is stored under.
- **ESP32 reader** (`esp_reader.dfy`). The UID is read only when both MFRC522 steps
  succeed. It is rendered as `:`-joined two-digit lower-case hex, and that rendering
  parses back to the bytes.
- **Helpers** (`text.dfy`, `options.dfy`). Python's `str.strip()` with its whitespace
  set, ASCII lower-casing, decimal rendering of integers, and an `Option` type.

Inputs reach the model already parsed, such as form fields as strings and amounts as
integers. Timestamps are parameters. Each variant's `LogAction` method takes the outcome
of the log insert as a parameter:
- a `bool` in the Clones and web variants;
- the outcome of each attempt in `cloneWep.py`;
- nothing in `wep.py`. Its `log_action` catches nothing, so a failed insert there is an
  unhandled 500 after the handler's own commit; the model covers only the runs where
  the insert goes through (see "## Left out").

No handler of the Clones and web variants checks the sign of `hours`, `coins` or a
registration balance. The model keeps this. A negative `hours` passes the balance check
and raises the balance, and conservation still holds, with a negative debit.

## Model

| member | source | states |
|---|---|---|
| Text.Strip | Clones/19-01-26clone.py:732-733 | the stripped text is no longer than the input; it is empty exactly when the input is all whitespace, otherwise it starts and ends with a non-space |
| Text.StripInfix | Clones/19-01-26clone.py:732-733 | the stripped text is the slice of the input right after its leading whitespace, and everything after it is whitespace |
| Text.StripIdempotent | Clones/19-01-26clone.py:732-733 | stripping an already stripped card id or name changes nothing |
| Text.Lower | Clones/19-01-26clone.py:689 | no upper-case ASCII letter is left; each one becomes its lower-case partner in place; every other character is kept |
| Text.LowerIdempotent | Clones/19-01-26clone.py:689 | lower-casing an already lower-cased text changes nothing |
| Ledger.LogAction | Clones/19-01-26clone.py:674-686 | the log grows by exactly the given row when the insert is stored and is unchanged otherwise; nothing is ever removed |
| Ledger.AddUser | Clones/19-01-26clone.py:729-758 | 400 exactly when the stripped card id or name is empty; 400 duplicate exactly when the card already exists; otherwise the card is added with the holder and balance, no other account changes, one row logs the balance; refusals change nothing; non-negativity is kept for a non-negative balance |
| Ledger.UpdateBalance | Clones/19-01-26clone.py:761-790 | 400 exactly for an empty card id or an amount ≤ 0; 404 exactly for an unknown card; otherwise the balance grows by exactly the amount, other accounts are untouched and the row logs the new balance; refusals change nothing; non-negativity is kept |
| Ledger.Spend | Clones/19-01-26clone.py:793-828 | 400 for an empty card id, 404 for an unknown card, 400 with current and required balance exactly when the balance is below the hours; otherwise the balance drops by the hours and stays ≥ 0, other accounts are untouched and the row logs the new balance; refusals change nothing |
| CloneServer.ScanOutcome | Clones/19-01-26clone.py:831-938 | an empty card id is refused before the cache is touched; any other card is cached; unregistered, welcome (zero coins), declined and approved each happen exactly under their condition; only an approval changes the store, lowering the balance by the coins to a value ≥ 0 and logging one row |
| CloneServer.TakeLastCard | Clones/19-01-26clone.py:941-950 | the cached card id is returned when present, 404 otherwise, and the slot is empty afterwards |
| CloneServer.Server.LogAction | Clones/19-01-26clone.py:674-686 | appends the row iff the insert is stored, reports that, touches nothing else |
| CloneServer.Server.AddUser | Clones/19-01-26clone.py:729-758 | the new tables and reply are those of Ledger.AddUser; the cache is untouched |
| CloneServer.Server.UpdateBalance | Clones/19-01-26clone.py:761-790 | the new tables and reply are those of Ledger.UpdateBalance; the cache is untouched |
| CloneServer.Server.Spend | Clones/19-01-26clone.py:793-828 | the new tables and reply are those of Ledger.Spend; the cache is untouched |
| CloneServer.Server.ScanCard | Clones/19-01-26clone.py:831-938 | the new tables, cache and reply are those of ScanOutcome |
| CloneServer.Server.GetLastCard | Clones/19-01-26clone.py:941-950 | answer and new cache are those of TakeLastCard; the tables are untouched |
| CloneRuns.Run | Clones/19-01-26clone.py:729-950 | a run answers every request exactly once |
| CloneRuns.ApplyConserves | Clones/19-01-26clone.py:729-938 | one request moves a card's balance by exactly its accepted credit minus its accepted debit |
| Ledger.AddUserConserves | Clones/19-01-26clone.py:729-758 | an accepted registration credits the registered balance to that card only |
| Ledger.UpdateBalanceConserves | Clones/19-01-26clone.py:761-790 | an accepted top-up credits the amount to that card only |
| Ledger.SpendConserves | Clones/19-01-26clone.py:793-828 | an accepted spend debits the hours from that card only |
| CloneRuns.ScanConserves | Clones/19-01-26clone.py:831-938 | an activating scan debits the coins from that card only |
| CloneRuns.Conservation | Clones/19-01-26clone.py:729-938 | after any run every card's balance is its initial balance plus accepted credits minus accepted debits |
| CloneRuns.StaysNonNegative | Clones/19-01-26clone.py:793-828 | no balance becomes negative over a run when none starts negative and no card is registered with a negative balance |
| CloneRuns.ApplyLogs | Clones/19-01-26clone.py:674-686 | one request keeps the old log rows and appends one row exactly when it is accepted and its insert is stored |
| CloneRuns.LogGrowth | Clones/19-01-26clone.py:674-686 | over a run the log keeps its old rows as a prefix and grows by exactly the number of accepted requests whose insert was stored |
| CloneRuns.NoScanNoCard | Clones/19-01-26clone.py:831-950 | once the cache is empty, every read before the first scan with a non-empty card id answers 404; scans whose card id strips to empty leave it empty |
| CloneRuns.ReadOnce | Clones/19-01-26clone.py:831-950 | in any run, of two reads with no filling scan between them the second answers 404, whatever came before |
| CloneRuns.SecondReadIsEmpty | Clones/19-01-26clone.py:945-950 | two reads in a row: the second answers 404 |
| Firmware.LastDot | Clones/19-01-26clone.py:689 | the index of the last '.' in the name, or -1 when there is none |
| Firmware.AllowedFile | Clones/19-01-26clone.py:688-689 | a name is accepted exactly when it ends in '.' followed by "bin" in any letter case |
| Firmware.StoredName | Clones/19-01-26clone.py:970-973 | the stored name is itself an accepted firmware name; split at its last '.', it gives the extension "bin" and, before it, the base name, '_' and the timestamp |
| Firmware.AllowedFileExamples | Clones/19-01-26clone.py:688-689 | "x.BIN" is accepted, "x.bin.txt" and "bin" are not |
| Retry.PolicyFrom | cloneWep.py:509-537 | at most three attempts; every attempt before the last failed with "locked"; success exactly when the last attempt committed; a give-up carries the last attempt's error, and gives up on "locked" only at the third attempt |
| Retry.ExecuteDbQuery | cloneWep.py:509-537 | returns exactly when the policy ends in a commit, otherwise re-raises the policy's error; sleeps 100·(k+1) ms before retry k+1, so the sleeps strictly grow and there are at most two |
| CloneWepServer.ScanDebit | cloneWep.py:689-790 | no JSON, empty card id or coins ≤ 0 (coins default to 1) are refused with the state unchanged; a valid scan is cached; it never merely displays; unregistered, declined and approved each happen exactly under their condition; an approval strictly lowers the balance to a value ≥ 0 and logs one row |
| CloneWepServer.Server.LogAction | cloneWep.py:484-507 | reports success exactly when the retry policy ends in a commit, and the row is appended exactly then |
| CloneWepServer.Server.AddUser | cloneWep.py:566-601 | the new tables and reply are those of Ledger.AddUser with the log stored iff the retry policy commits |
| CloneWepServer.Server.UpdateBalance | cloneWep.py:604-638 | the new tables and reply are those of Ledger.UpdateBalance with the log stored iff the retry policy commits |
| CloneWepServer.Server.Spend | cloneWep.py:641-681 | the new tables and reply are those of Ledger.Spend with the log stored iff the retry policy commits |
| CloneWepServer.Server.ScanCardPost | cloneWep.py:689-790 | the new tables, cache and reply are those of ScanDebit |
| CloneWepServer.Server.ScanCardGet | cloneWep.py:792-807 | answers the cached scan (none is the 404) and changes nothing, so repeated reads agree |
| CloneWepServer.Server.SpendApi | cloneWep.py:809-815 | always 410 |
| CloneWepRuns.Run | cloneWep.py:566-815 | a run answers every request exactly once |
| CloneWepRuns.ScanDebitConserves | cloneWep.py:689-790 | an approved scan debits its coins (1 when absent) from that card only |
| CloneWepRuns.ApplyConserves | cloneWep.py:566-815 | one request moves a card's balance by exactly its accepted credit minus its accepted debit |
| CloneWepRuns.Conservation | cloneWep.py:566-815 | after any run every card's balance is its initial balance plus accepted credits minus accepted debits |
| CloneWepRuns.StaysNonNegative | cloneWep.py:566-790 | no balance becomes negative over a run when none starts negative and no card is registered with a negative balance |
| WebServer.Lookup | web.py:628-661 | 400 exactly for an empty card id; unregistered exactly for an unknown card; otherwise the holder and current balance; never activates a machine |
| WebServer.TakeSeenCard | web.py:666-672 | the cached card id is returned when present, 404 otherwise, and the slot is empty afterwards |
| WebServer.Server.LogAction | web.py:471-483 | appends the row iff the insert is stored, reports that, touches nothing else |
| WebServer.Server.AddUser | web.py:511-543 | the new tables and reply are those of Ledger.AddUser; the cache is untouched |
| WebServer.Server.UpdateBalance | web.py:546-578 | the new tables and reply are those of Ledger.UpdateBalance; the cache is untouched |
| WebServer.Server.Spend | web.py:581-620 | the new tables and reply are those of Ledger.Spend; the cache is untouched |
| WebServer.Server.ScanCardPost | web.py:628-661 | the reply is Lookup's; a non-empty card id is cached with the time; no account or log row changes |
| WebServer.Server.ScanCardGet | web.py:666-672 | answer and new cache are those of TakeSeenCard; the tables are untouched |
| WepServer.InsertOrIgnore | wep.py:273-287 | a new card is inserted with holder and balance, an existing card keeps its account; one "User added" row is logged either way |
| WepServer.AddMoney | wep.py:290-315 | a missing card id or amount changes nothing; otherwise a known card grows by the amount and the row logs its new balance, an unknown card changes no account and the row logs holder "Unknown" with balance 0; non-negativity is kept for a non-negative amount |
| WepServer.SpendHours | wep.py:354-389 | 400 "User not found" exactly for a missing or unknown card; 400 with the current and required balance exactly when the balance is below the hours; success exactly when the balance covers the hours; then the balance drops by the hours and stays ≥ 0 and the row is written with it; on refusal nothing is written |
| WepServer.Server.LogAction | wep.py:346-352 | appends exactly the given row |
| WepServer.Server.AddUser | wep.py:273-287 | always redirects; the new tables are InsertOrIgnore's |
| WepServer.Server.UpdateBalance | wep.py:290-315 | always redirects; the new tables are AddMoney's |
| WepServer.Server.Spend | wep.py:354-389 | the new tables and reply are SpendHours's: debit and log row together or neither |
| WepRuns.Run | wep.py:273-389 | a run answers every request exactly once |
| WepRuns.InsertConserves | wep.py:273-287 | a registration credits its balance to the card exactly when it inserts that card; an ignored insert credits nothing |
| WepRuns.AddMoneyConserves | wep.py:290-315 | a top-up credits its amount exactly when it names a registered card; otherwise no balance changes |
| WepRuns.SpendHoursConserves | wep.py:354-389 | an accepted spend debits the hours from that card only |
| WepRuns.ApplyConserves | wep.py:273-389 | one request moves a card's balance by its credit against the tables it meets minus its accepted debit |
| WepRuns.Conservation | wep.py:273-389 | after any run every card's balance is its initial balance plus the credits it received minus accepted debits |
| WepRuns.StaysNonNegative | wep.py:273-389 | no balance becomes negative over a run when none starts negative and every registration balance and top-up amount is non-negative |
| WepRuns.NegativeTopUp | wep.py:294-301 | a top-up of −5 on a zero balance redirects and leaves −5: the sign of the amount is never checked |
| EspReader.HexDigit | ESP/LaundryEsp.py:35 | the digit of a value below 16 reads back as that value |
| EspReader.HexValue | ESP/LaundryEsp.py:35 | exactly the characters 0-9 and a-f have a hex value, and it is below 16 |
| EspReader.Hex2 | ESP/LaundryEsp.py:35 | a byte is written as exactly two hex digits and parses back to itself |
| EspReader.FormatUid | ESP/LaundryEsp.py:35 | n ≥ 1 bytes give 3n − 1 characters, no bytes give "" |
| EspReader.FormatLayout | ESP/LaundryEsp.py:35 | byte i, in input order, is the two digits at positions 3i and 3i+1, followed by ':' unless it is the last |
| EspReader.ParseFormat | ESP/LaundryEsp.py:35 | splitting a rendered UID on ':' and parsing each pair gives back the bytes |
| EspReader.FormatInjective | ESP/LaundryEsp.py:35 | two UIDs render the same exactly when they are equal |
| EspReader.ReadRfidId | ESP/LaundryEsp.py:29-37 | a card id exactly when both the request and the anticollision step succeed, and then one that parses back to the UID, of length 3n − 1 |

## Left out

- Form and JSON parsing. Handlers receive already-parsed values, so these are not modelled:
  - `int()` failures, which give 500 in the Clones and web variants and 400 in `cloneWep.py`;
  - in `wep.py`: a missing `card_id`, `username` or `balance` in `add_user` gives 400,
    and a missing or non-numeric `hours` in `spend` gives 500 (`int()` raises and nothing
    catches it);
  - the defaults of absent form fields;
  - the JSON `coins` value of the device scan. In `cloneWep.py` it goes through `int()`,
    which truncates a float (0.5 is refused, 2.9 charges 2); the model takes the integer
    after that conversion. In the Clones variant it is used as sent, and the model takes
    it as an integer, absent being 0, which makes a plain scan display-only.
- Integer width. SQLite stores integers in 64 bits: binding a larger Python integer
  raises `OverflowError`, and an overflowing `balance + ?` becomes a floating-point
  value. Balances and amounts are unbounded integers in the model.
- In `wep.py`, a failed log insert. Its `log_action` catches nothing, so the failure
  propagates after the handler's own commit: the account change stands, no row is
  written and the reply is a 500. The model's `wep.py` handlers always store the row.
- Database failures other than the log insert. These are SQL exceptions that end in 500,
  and the `IntegrityError` branch, which cannot be reached after the duplicate check.
  In `cloneWep.py`, only the log insert goes through the retry oracle; the handlers' own
  queries are taken to succeed.
- Timing and concurrency. This covers `db_lock`, concurrent requests and the actual sleeps.
  Retry.ExecuteDbQuery records the sleep durations instead of sleeping.
- Timestamps. `datetime.now()` and `strftime` become string parameters.
- Firmware file handling. Saving, listing, download and deletion are file-system I/O and
  are not modelled. `secure_filename` is not modelled either: Firmware.StoredName takes
  the already-secured name.
- Text.Lower lower-cases ASCII letters only. Python's `str.lower()` also maps non-ASCII
  letters. This gives the same verdict against "bin", because no non-ASCII letter
  lower-cases to 'b', 'i' or 'n'.
- WepServer.AddMoney takes the amount as an integer. `wep.py` passes the raw form text to
  SQLite, which converts it. The logged action text shows the integer's decimal form.
- WepServer.InsertOrIgnore takes the balance as an integer, not the raw form text.
- CloneWepServer.ScanDebit puts the holder name into its Declined reply, although the JSON
  that `cloneWep.py` sends for that case omits it.
- The HTML templates, the index pages, `init_db`, `database/` and `ESP/read_id.py` are not
  part of this model.
- The ESP32 socket server `start_server` is network I/O and is not modelled. The MFRC522
  driver is replaced by its status results and the UID bytes.
