# dnsproxy: a Dafny model of the lookup and its console

`dnsproxy` looks up the A record of one domain. It sends a single DNS query
over UDP to a server, and that UDP traffic can be relayed through a SOCKS5
proxy. It reports the name and address of the first answer.

The tool runs in one of two modes:

- With `-domain`, it does that one lookup.
- Without it, it opens a console. There, `server X` and `proxy X` replace the
  two settings, `exit` leaves, and any other word is looked up with the
  current settings.

This project models three parts of the tool:

- **Endpoint defaulting** (`endpoint.dfy`, module `Endpoint`). A server
  without a `:` gets `:53`. A proxy without a `:` gets `:7890`. At startup
  this applies only to a non-empty proxy, because an empty proxy means
  "connect directly".
- **One lookup** (`dns.dfy`, module `Dns`, and `exchange.dfy`, module
  `Exchange`).
  - The query is a record of the header and question fields of sections
    4.1.1 and 4.1.2 of RFC 1035.
  - The network is a `Network` record. It says whether dialling, writing and
    reading succeed, and whether the reply decoded as DNS.
  - `Exchange.Query` carries out the steps in the program's order, with an
    early return after each failing step. It returns the result and the
    trace of steps it performed.
- **The console** (`console.dfy`, module `Console`).
  - Class `Prompt` holds the two settings that the program updates in
    place.
  - `Step` interprets one line. `Run` is the read loop.
  - `Commands` says what each read stands for, and `Replay` plays a sequence
    of commands. `Session`, the two together, is the pure function that
    specifies the loop. The lemmas about the console are proved about them.
  - `Launch` is the program's entry: flag defaulting, then either the one-shot
    lookup or the console.

`text.dfy` (module `Text`) models the two string functions that decide how a
line is read: `strings.TrimSpace` and `strings.Split` on a single space.

Four consequences of the code worth knowing:

- If the reply does not decode as a DNS message, the code returns the domain,
  an empty address and **no error**. It does not report a decode error.
- A `proxy` command given at the console always leaves a non-empty proxy.
  So once a proxy is set, direct mode cannot be restored from the console.
- A blank line is a lookup of the empty domain.
- `server` or `proxy` with no argument indexes past the end of the word list,
  and the program panics.

## Model

| member | source | states |
|---|---|---|
| Endpoint.Normalize | main.go:83-85 | the result always has a port; it extends the address; it equals the address exactly when the address already holds a `:`; otherwise what it adds is `:` and the default port |
| Endpoint.StartupProxy | main.go:86-88 | the startup proxy is empty exactly when the flag is empty (direct mode); a non-empty flag is normalized with port 7890, so it gets `:7890` when it has no `:` and is kept as it is otherwise |
| Endpoint.NormalizeIdempotent | main.go:113-115 | normalizing an already normalized address changes nothing, whatever the default port |
| Endpoint.DefaultingExamples | main.go:18 | `8.8.8.8` becomes `8.8.8.8:53`, `myproxy` becomes `myproxy:7890`, an address with a port and the default server are left as they are |
| Text.TrimLeftDrops | main.go:108 | trimming the front removes exactly the longest all-space prefix: what is kept is a suffix of the line, all that is removed is white space, and what is kept does not begin with white space |
| Text.TrimRightDrops | main.go:108 | trimming the back removes exactly the longest all-space suffix: what is kept is a prefix of the line, all that is removed is white space, and what is kept does not end with white space |
| Text.TrimSpaceTrims | main.go:108 | the contract of `TrimSpace`: the trimmed line neither begins nor ends with white space and is no longer than the line |
| Text.TrimSpaceOf | main.go:108 | pins `TrimSpace` on every input: trimming removes exactly the white space around a trimmed middle |
| Text.Split | main.go:109 | splitting yields at least one piece, and no piece holds the separator |
| Text.JoinSplit | main.go:109 | joining the pieces with the separator gives back the split string |
| Text.SplitJoin | main.go:109 | splitting a join of separator-free pieces gives back those pieces |
| Text.SplitSingle | main.go:109 | a string is a single piece exactly when it holds no separator, which is when `command[1]` does not exist |
| Dns.BuildQuery | main.go:45-51 | the query has ID 1, QR clear, opcode QUERY and RD set; QDCOUNT is 1 and matches its single question, which is A/IN for the domain; it has no other records |
| Dns.AskedName | main.go:50 | a message names a domain exactly when it is a recursive A/IN query for that domain |
| Dns.QueryNamesDomain | main.go:50 | the query built for a domain asks about that domain, and different domains give different queries |
| Dns.SelectAnswer | main.go:62-72 | a decoded reply with answers yields the first answer's name and address; no DNS layer, or no answers, yields the domain and an empty address |
| Dns.FirstAnswerOnly | main.go:66-67 | replies that agree on their first answer yield the same result, whatever follows it and whatever domain was asked |
| Exchange.SelectTransport | main.go:32-38 | the SOCKS5 relay is used if and only if the proxy is non-empty; the target is always the server |
| Exchange.Query | main.go:29-72 | the trace is exactly dial, then one write of the query when dialling succeeded, then one read when writing also succeeded, in that order; the query is written exactly when dialling succeeded, and it is always the query built for the domain; the reply is read exactly when writing also succeeded; the first failure is returned with the domain and an empty address; the result has no error exactly when all three steps succeed, and it is then the selected answer |
| Console.Startup | main.go:82-88 | the startup server is the flag normalized with port 53 (`:53` added when it has no `:`, unchanged otherwise); the startup proxy is empty exactly when the flag is, and otherwise is the flag normalized with port 7890 |
| Console.Words | main.go:108-109 | a line yields at least one word, and no word holds a space |
| Console.ParseDispatch | main.go:108-126 | the contract of `Parse` and of `Classify`, which it calls: the first word decides: `exit` is quit, `server` and `proxy` take the second word or panic without one, any other first word is looked up; words after the second are ignored |
| Console.Commands | main.go:104-109 | there is one entry per read |
| Console.CommandsAt | main.go:104-109 | the entry for a read is the command of its line, or none for a read error, which the loop skips |
| Console.Replay | main.go:100-134 | playing a sequence of commands issues at most one lookup per command |
| Console.Session | main.go:100-134 | a session issues at most one lookup per read |
| Console.Apply | main.go:110-125 | `server X` changes only the server, `proxy X` changes only the proxy; the new value is X normalized with port 53 or 7890, so X itself when X has a `:` and X followed by `:53` or `:7890` otherwise; the proxy is then never empty; every other command leaves both settings unchanged |
| Console.ReplayAt | main.go:100-134 | one turn of the loop: a read error is skipped; `exit` and a missing argument end the session; a lookup is recorded under the current settings; a setting command carries on with the updated settings |
| Console.WordsOf | main.go:108-109 | a line padded with white space splits into exactly the words that were joined with single spaces |
| Console.ParseSetting | main.go:110-121 | `server X` and `proxy X`, with X one word and any surrounding white space, set X |
| Console.ParseBareVerb | main.go:111-118 | `server` or `proxy` alone has no argument, so the program panics on it |
| Console.ParseExit | main.go:123-124 | `exit` with any surrounding white space quits |
| Console.ParseLookup | main.go:125-126 | any other single word, with any surrounding white space, is looked up as the domain |
| Console.PanicsOnlyOnSettings | main.go:110-122 | a session that panics does so on `server` or `proxy`, the only commands that read a second word |
| Console.ParseBlankLine | main.go:108-126 | a blank line is a lookup of the empty domain |
| Console.ProxyStaysSet | main.go:117-121 | once the proxy is non-empty, no sequence of console commands makes it empty again, and every lookup issued along the way goes through a proxy |
| Console.DirectModeIsLost | main.go:117-121 | wherever a `proxy` line occurs in the input, provided the reads before it did not end the session, every lookup issued after it goes through a proxy and the session ends with one, so direct mode cannot be restored from the console |
| Console.CommandsAppend | main.go:100-109 | each read is interpreted on its own, so the commands of two runs of reads are their commands one after the other |
| Console.ReplayAppend | main.go:100-134 | a replay that uses up its commands carries on into the next ones from the settings it left, with the later lookups after the earlier ones |
| Console.ServersKeepPort | main.go:111-115 | starting from a server with a port, after any sequence of commands the server keeps a port and every lookup is issued to a server with a port |
| Console.LookupsKeepSettings | main.go:125-132 | a sequence of lookups and read errors ends with its starting settings, runs until the input ends, and issues every lookup under those settings |
| Console.Prompt.constructor | main.go:82-88 | the console starts with the flags as startup defaulting leaves them |
| Console.Prompt.Step | main.go:108-122 | the command is the one the line stands for, and the new settings are the old ones with that command applied |
| Console.Prompt.Turn | main.go:104-122 | one turn on a line: its command is the entry the whole input's commands hold for it, and the settings become the old ones with that command applied |
| Console.Prompt.Run | main.go:100-134 | the final settings, why the loop stopped and the lookups issued in order are what the session function gives for the input |
| Console.Launch | main.go:81-99 | with a domain flag, one lookup is made under the startup settings: its trace is dial, write, read up to the first failure, a failure gives the domain, an empty address and the error of the step that failed, and otherwise the answer is the selected one; without one, the console runs from the startup settings |

## Left out

- Sockets and the SOCKS5 client (`net.Dial`, `ccsocks5`, the UDP ASSOCIATE relay of section 7 of RFC 1928) are network I/O and a foreign library. Each step is only a success or a failure, given in `Exchange.Network`.
- `gopacket` encoding and decoding are a foreign library. The query is a record, not bytes. "The reply did not decode as DNS" and "the decoder found no DNS layer" are one case: `Received(None)`.
- `IP.String()` is a foreign library. An answer carries its address already as text, so the text for a record without an address (Go prints `<nil>`) is part of the given answer.
- The 2048-byte read buffer is not modelled. Nor is the fact that the whole buffer, rather than the bytes read, goes to the decoder. What a reply decodes to is an input.
- Deferred `Close` calls, blocking reads and timeouts concern resource lifetime and have no functional content here.
- Reading from standard input is not modelled. The input is the sequence of outcomes the reads return. Two effects of the real reader are therefore missing. First, a fresh `bufio.Reader` is made on every turn, which can drop input it had buffered. Second, at end of input a read fails forever, so the Go loop spins, whereas `Console.Session` stops with `InputEnded` once its finite input is used up.
- Console.Prompt.Run: does not perform the lookups it issues. In the program their results are only printed, or logged on error, and the loop continues either way. Each one is an `Exchange.Query` made with the recorded settings.
- Console.Launch: does not model the fatal exit on an error in the one-shot lookup. It returns the lookup's result instead.
- Printing, logging and `flag.Parse` are user interface and process plumbing. The flags are parameters of `Launch`.
- Strings are sequences of Unicode scalar values, not UTF-8 bytes. Invalid UTF-8 on a line is not modelled.
