/** The settings service: Save edits the env file in place, Load parses it again. */
module Settings {
  import opened Domain
  import opened Text
  import opened StringOrder
  import opened EnvFile
  import opened EnvEdit

  /** The values of config.ProxyMode and config.EdgeProvider. */
  datatype ProxyMode = Internal | External
  datatype EdgeProvider = Traefik

  function ProxyText(p: ProxyMode): string
  {
    match p case Internal => "internal" case External => "external"
  }

  function ParseProxyMode(v: string): ProxyMode
  {
    if TrimSpace(v) == "external" then External else Internal
  }

  /** Traefik is the one provider there is, whatever the file says. */
  function ParseEdgeProvider(v: string): EdgeProvider
  {
    Traefik
  }

  function DefaultString(v: string, fallback: string): string
  {
    if TrimSpace(v) == "" then fallback else TrimSpace(v)
  }

  function ConfiguredURL(domain: string, fallbackHost: string, port: nat): string
  {
    var d, h := TrimSpace(domain), TrimSpace(fallbackHost);
    if d != "" then "https://" + d
    else
      var host := if h == "" || h == "0.0.0.0" then "localhost" else h;
      if ':' in host then "http://" + host else "http://" + host + ":" + Decimal(port)
  }

  /** What detectInstallMode and resolveEnvPath find. */
  datatype InstallMode = UnknownMode | DockerMode | BareMode
  datatype Installation = Installation(mode: InstallMode, image: string, envPath: string)

  /** The arguments of applyCommand, and of applyTitle and applyDescription, which take the
      first two; the three texts stand for themselves through them. */
  datatype ApplyTexts = ApplyTexts(mode: InstallMode, proxy: ProxyMode, image: string, envPath: string, port: nat,
                                   network: string, resolver: string, domain: string)

  datatype Snapshot = Snapshot(domain: string, email: string, proxy: ProxyMode, provider: EdgeProvider,
                               network: string, resolver: string, entrypoint: string, at: Installation,
                               url: string, apply: ApplyTexts, appDomains: bool)

  datatype UpdateInput = UpdateInput(domain: string, email: string, proxy: string, provider: string,
                                     network: string, resolver: string, entrypoint: string)

  /** The map Save hands to the editor. */
  function Updates(input: UpdateInput): map<string, string>
  {
    map[DOMAIN := TrimSpace(input.domain),
        ACME_EMAIL := TrimSpace(input.email),
        PROXY_MODE := ProxyText(ParseProxyMode(input.proxy)),
        EDGE_PROVIDER := "traefik",
        EDGE_NETWORK := DefaultString(input.network, "traefik-public"),
        EDGE_CERT_RESOLVER := DefaultString(input.resolver, "letsencrypt"),
        EDGE_ENTRYPOINT := DefaultString(input.entrypoint, "websecure")]
  }

  function Get(values: map<string, string>, k: string): string
  {
    if k in values then values[k] else ""
  }

  /** The Snapshot Save returns: from the updates. */
  function Saved(u: map<string, string>, at: Installation, host: string, port: nat): Snapshot
  {
    var proxy := ParseProxyMode(Get(u, PROXY_MODE));
    Snapshot(Get(u, DOMAIN), Get(u, ACME_EMAIL), proxy, ParseEdgeProvider(Get(u, EDGE_PROVIDER)), Get(u, EDGE_NETWORK),
             Get(u, EDGE_CERT_RESOLVER), Get(u, EDGE_ENTRYPOINT), at, ConfiguredURL(Get(u, DOMAIN), host, port),
             ApplyTexts(at.mode, proxy, at.image, at.envPath, port,
                        Get(u, EDGE_NETWORK), Get(u, EDGE_CERT_RESOLVER), Get(u, DOMAIN)), true)
  }

  /** The Snapshot Load returns: from the parsed file. */
  function Loaded(values: map<string, string>, at: Installation, host: string, port: nat): Snapshot
  {
    var domain, proxy := TrimSpace(Get(values, DOMAIN)), ParseProxyMode(Get(values, PROXY_MODE));
    var network := DefaultString(Get(values, EDGE_NETWORK), "traefik-public");
    var resolver := DefaultString(Get(values, EDGE_CERT_RESOLVER), "letsencrypt");
    Snapshot(domain, TrimSpace(Get(values, ACME_EMAIL)), proxy, ParseEdgeProvider(Get(values, EDGE_PROVIDER)), network,
             resolver, DefaultString(Get(values, EDGE_ENTRYPOINT), "websecure"), at, ConfiguredURL(domain, host, port),
             ApplyTexts(at.mode, proxy, at.image, at.envPath, port, network, resolver, domain), true)
  }

  /** What the user gets for a setting: the text without the spaces around it, or the default
      when there is nothing else. */
  ghost predicate Chosen(v: string, fallback: string, got: string)
  {
    if AllSpace(v) then got == fallback else Stripped(v, got)
  }

  lemma DefaultStringChooses(v: string, fallback: string)
    ensures Chosen(v, fallback, DefaultString(v, fallback))
  {
    hide TrimSpace, AllSpace, Stripped;
    StripsSpaces(v);
  }

  /** The address shown: the domain over https, else the host of the request over http, with
      the port unless it has one; no host and the wildcard address mean localhost. */
  ghost predicate Address(domain: string, fallbackHost: string, port: nat, url: string)
  {
    if domain != "" then url == "https://" + domain
    else if AllSpace(fallbackHost) || Stripped(fallbackHost, "0.0.0.0") then url == "http://localhost:" + Decimal(port)
    else exists host :: Stripped(fallbackHost, host) && url == "http://" + if ':' in host then host else host + ":" + Decimal(port)
  }

  lemma ConfiguredURLAddresses(domain: string, host: string, port: nat)
    requires TrimSpace(domain) == domain
    ensures Address(domain, host, port, ConfiguredURL(domain, host, port))
  {
    hide TrimSpace, AllSpace, Stripped, Decimal;
    StripsSpaces(host);
    StrippedUnique(host, "0.0.0.0");
  }

  /** A Snapshot for given texts: stripped or default, with the address and the apply command
      made of the same values. */
  ghost predicate Shows(v: Snapshot, i: UpdateInput, at: Installation, host: string, port: nat)
  {
    && Stripped(i.domain, v.domain) && Stripped(i.email, v.email)
    && (v.proxy.External? <==> Stripped(i.proxy, "external"))
    && Chosen(i.network, "traefik-public", v.network)
    && Chosen(i.resolver, "letsencrypt", v.resolver)
    && Chosen(i.entrypoint, "websecure", v.entrypoint)
    && Address(v.domain, host, port, v.url)
    && v.at == at && v.appDomains
    && v.apply == ApplyTexts(at.mode, v.proxy, at.image, at.envPath, port, v.network, v.resolver, v.domain)
  }

  lemma SavedShows(i: UpdateInput, at: Installation, host: string, port: nat)
    ensures Shows(Saved(Updates(i), at, host, port), i, at, host, port)
  {
    hide TrimSpace, AllSpace, Stripped, Decimal, DefaultString, Chosen, Updates, ProxyText, ParseProxyMode, Address, ConfiguredURL,
         DOMAIN, ACME_EMAIL, PROXY_MODE, EDGE_NETWORK, EDGE_CERT_RESOLVER, EDGE_PROVIDER, EDGE_ENTRYPOINT;
    UpdatesAre(i);
    StripsSpaces(i.domain);
    StripsSpaces(i.email);
    ModesAreClean(ParseProxyMode(i.proxy));
    ProxyIs(i.proxy);
    DefaultStringChooses(i.network, "traefik-public");
    DefaultStringChooses(i.resolver, "letsencrypt");
    DefaultStringChooses(i.entrypoint, "websecure");
    TrimSpaceTrimmed(i.domain);
    TrimSpaceTrimmed(TrimSpace(i.domain));
    ConfiguredURLAddresses(TrimSpace(i.domain), host, port);
  }

  lemma ProxyIs(v: string)
    ensures ParseProxyMode(v).External? <==> Stripped(v, "external")
  {
    hide TrimSpace, Stripped;
    StrippedUnique(v, "external");
  }

  /** The texts a file holds. */
  function Texts(values: map<string, string>): UpdateInput
  {
    UpdateInput(Get(values, DOMAIN), Get(values, ACME_EMAIL), Get(values, PROXY_MODE), Get(values, EDGE_PROVIDER),
                Get(values, EDGE_NETWORK), Get(values, EDGE_CERT_RESOLVER), Get(values, EDGE_ENTRYPOINT))
  }

  lemma LoadedShows(values: map<string, string>, at: Installation, host: string, port: nat)
    ensures Shows(Loaded(values, at, host, port), Texts(values), at, host, port)
  {
    hide TrimSpace, AllSpace, Stripped, Decimal, DefaultString, Chosen, ParseProxyMode, Address, ConfiguredURL, Get,
         DOMAIN, ACME_EMAIL, PROXY_MODE, EDGE_NETWORK, EDGE_CERT_RESOLVER, EDGE_PROVIDER, EDGE_ENTRYPOINT;
    var i := Texts(values);
    StripsSpaces(i.domain);
    StripsSpaces(i.email);
    ProxyIs(i.proxy);
    DefaultStringChooses(i.network, "traefik-public");
    DefaultStringChooses(i.resolver, "letsencrypt");
    DefaultStringChooses(i.entrypoint, "websecure");
    TrimSpaceTrimmed(i.domain);
    TrimSpaceTrimmed(TrimSpace(i.domain));
    ConfiguredURLAddresses(TrimSpace(i.domain), host, port);
  }

  /** The map holds what the lines say. */
  ghost predicate Parses(values: map<string, string>, lines: seq<string>)
  {
    forall k :: (k in values <==> Lookup(lines, k).Some?) && (k in values ==> Lookup(lines, k) == Some(values[k]))
  }

  lemma {:induction false} LookupSnoc(lines: seq<string>, line: string, k: string)
    ensures Lookup(lines + [line], k) == Or(ValueAt(line, k), Lookup(lines, k))
  {
    LookupAppend(lines, [line], k);
    SingleLookup([line], k);
  }

  lemma ParsesNone()
    ensures Parses(map[], [])
  {
  }

  lemma ParsesSnoc(values: map<string, string>, lines: seq<string>, line: string)
    requires Parses(values, lines)
    ensures var p := ParseLine(line);
            Parses(if p.Some? then values[p.value.0 := p.value.1] else values, lines + [line])
  {
    hide ParseLine;
    forall k ensures Lookup(lines + [line], k) == Or(ValueAt(line, k), Lookup(lines, k)) {
      LookupSnoc(lines, line, k);
    }
  }

  lemma TerminatedIs(text: string)
    ensures Terminated(text) == if text != "" && text[|text| - 1] != '\n' then text + "\n" else text
  {
  }

  lemma EditTurn(lines: seq<string>, i: nat, rem: map<string, string>, before: seq<string>)
    requires i < |lines|
    ensures before + Edit(lines[i..], rem) ==
              (before + EditLine(lines[i], rem)) + Edit(lines[i + 1..], Remaining(lines[i], rem))
    ensures Leftover(lines[i..], rem) == Leftover(lines[i + 1..], Remaining(lines[i], rem))
  {
    hide EditLine, Remaining;
    assert lines[i..][0] == lines[i] && lines[i..][1..] == lines[i + 1..];
  }

  lemma EditDone(lines: seq<string>, rem: map<string, string>)
    ensures Edit(lines[|lines|..], rem) == [] && Leftover(lines[|lines|..], rem) == rem
  {
  }

  /** How file operations can go wrong; a write that breaks off has emptied the file first. */
  datatype Fault = NoFault | Unreadable | NoDirectory | NotOpened | BrokeOff(kept: nat)

  class SettingsService {
    /** The env file; None while it does not exist. */
    var content: Option<string>

    method ReadEnvValues() returns (values: map<string, string>)
      ensures Parses(values, LinesOf(content))
    {
      hide Parses, Lookup, TrimSpace, Split, Cut;
      values := map[];
      ParsesNone();
      if content.None? {
        return;
      }
      var lines := Split(content.value, '\n');
      for i := 0 to |lines|
        invariant Parses(values, lines[..i])
      {
        ParsesSnoc(values, lines[..i], lines[i]);
        assert lines[..i + 1] == lines[..i] + [lines[i]];
        var line := TrimSpace(lines[i]);
        if line == "" || line[0] == '#' {
          continue;
        }
        var cut := Cut(line, '=');
        if !cut.found {
          continue;
        }
        values := values[cut.before := cut.after];
      }
      assert lines[..|lines|] == lines;
    }

    /** One pass over the lines. */
    method EditLines(lines: seq<string>, updates: map<string, string>)
      returns (updated: seq<string>, remaining: map<string, string>)
      ensures updated == Edit(lines, updates) && remaining == Leftover(lines, updates)
    {
      hide Edit, Leftover, Cut;
      updated, remaining := [], updates;
      assert lines[0..] == lines;
      EditDone(lines, updates);
      for i := 0 to |lines|
        invariant Edit(lines, updates) == updated + Edit(lines[i..], remaining)
        invariant Leftover(lines, updates) == Leftover(lines[i..], remaining)
      {
        ghost var before := updated;
        EditTurn(lines, i, remaining, before);
        var cut := Cut(lines[i], '=');
        if !cut.found {
          updated := updated + [lines[i]];
          continue;
        }
        if cut.before !in remaining {
          updated := updated + [lines[i]];
          continue;
        }
        var value := remaining[cut.before];
        remaining := remaining - {cut.before};
        if value == "" {
          assert before + [] == before;
          continue;
        }
        updated := updated + [cut.before + "=" + value];
      }
      EditDone(lines, remaining);
      assert updated + [] == updated;
    }

    /** The loop over a list of keys that may or may not have a value left. */
    method AppendKeys(keys: seq<string>, remaining: map<string, string>, start: seq<string>)
      returns (updated: seq<string>)
      ensures updated == start + Entries(keys, remaining)
    {
      updated := start;
      for i := 0 to |keys|
        invariant start + Entries(keys, remaining) == updated + Entries(keys[i..], remaining)
      {
        assert keys[i..][0] == keys[i] && keys[i..][1..] == keys[i + 1..];
        var value := if keys[i] in remaining then remaining[keys[i]] else "";
        if value != "" {
          assert updated + ([Entry(keys[i], value)] + Entries(keys[i + 1..], remaining))
              == updated + [Entry(keys[i], value)] + Entries(keys[i + 1..], remaining);
          updated := updated + [keys[i] + "=" + value];
        }
      }
    }

    /** The keys left in the map, in whatever order it is iterated. */
    method OtherKeys(remaining: map<string, string>, seen: set<string>) returns (keys: seq<string>)
      ensures Distinct(keys) && forall k :: k in keys <==> k in remaining && k !in seen
    {
      keys := [];
      var todo := remaining.Keys;
      while todo != {}
        invariant todo <= remaining.Keys
        invariant Distinct(keys) && forall k :: k in keys <==> k in remaining && k !in todo && k !in seen
      {
        var key :| key in todo;
        todo := todo - {key};
        if key !in seen {
          keys := keys + [key];
        }
      }
    }

    /** The order in which maps are iterated does not show in the file: every run writes the
        one Output. */
    method UpdateEnvFile(updates: map<string, string>, fault: Fault) returns (ok: bool)
      modifies this
      ensures ok == fault.NoFault?
      ensures var output := Output(LinesOf(old(content)), updates);
              content == match fault
                case NoFault => Some(output)
                case BrokeOff(kept) => Some(if kept < |output| then output[..kept] else output)
                case _ => old(content)
    {
      hide Entries, Edit, Leftover, Split, Join, Sort, Increasing, PREFERRED, Terminated;
      if fault.Unreadable? {
        return false;
      }
      var lines := [];
      if content.Some? {
        lines := Split(content.value, '\n');
      }
      var updated, remaining := EditLines(lines, updates);
      updated := AppendKeys(PREFERRED, remaining, updated);
      var keys := OtherKeys(remaining, InPreferred());
      SortSorts(keys);
      IncreasingUnique(Sort(keys), Listing(remaining.Keys - InPreferred()));
      updated := AppendKeys(Sort(keys), remaining, updated);
      EntriesAppend(PREFERRED, Sort(keys), remaining);
      assert updated == OutputLines(lines, updates);
      var output := Join(updated, '\n');
      TerminatedIs(output);
      if output != "" && output[|output| - 1] != '\n' {
        output := output + "\n";
      }
      if fault.NoDirectory? || fault.NotOpened? {
        return false;
      }
      if fault.BrokeOff? {
        content := Some(if fault.kept < |output| then output[..fault.kept] else output);
        return false;
      }
      content := Some(output);
      return true;
    }

    method Load(at: Installation, fallbackHost: string, port: nat, readable: bool) returns (snapshot: Option<Snapshot>)
      ensures snapshot.None? <==> !readable
      ensures readable ==>
                exists values :: Parses(values, LinesOf(content)) && snapshot == Some(Loaded(values, at, fallbackHost, port))
                                 && Shows(snapshot.value, Texts(values), at, fallbackHost, port)
    {
      hide Parses, Loaded, Shows, Texts;
      if !readable {
        return None;
      }
      var values := ReadEnvValues();
      LoadedShows(values, at, fallbackHost, port);
      snapshot := Some(Loaded(values, at, fallbackHost, port));
    }

    method Save(input: UpdateInput, at: Installation, fallbackHost: string, port: nat, fault: Fault) returns (snapshot: Option<Snapshot>)
      modifies this
      ensures snapshot == if fault.NoFault? then Some(Saved(Updates(input), at, fallbackHost, port)) else None
      ensures fault.NoFault? ==> content == Some(Output(LinesOf(old(content)), Updates(input)))
      ensures fault.Unreadable? || fault.NoDirectory? || fault.NotOpened? ==> content == old(content)
      ensures snapshot.Some? ==> Shows(snapshot.value, input, at, fallbackHost, port)
      ensures snapshot.Some? && old(content).None? ==> content == Some(FreshFile(snapshot.value))
    {
      hide Updates, Saved, Shows, FreshFile, Output;
      SavedShows(input, at, fallbackHost, port);
      FirstSaveWrites(input, at, fallbackHost, port);
      var updates := Updates(input);
      var ok := UpdateEnvFile(updates, fault);
      if !ok {
        return None;
      }
      return Some(Saved(updates, at, fallbackHost, port));
    }
  }

  // What a first Save writes.

  /** A new env file: one line for each value that is there. */
  function FreshFile(v: Snapshot): string
  {
    (if v.domain == "" then "" else "TALOS_DOMAIN=" + v.domain + "\n")
    + (if v.email == "" then "" else "TALOS_ACME_EMAIL=" + v.email + "\n")
    + (if v.proxy.External? then "TALOS_PROXY_MODE=external\n" else "TALOS_PROXY_MODE=internal\n")
    + ("TALOS_EDGE_NETWORK=" + v.network + "\n")
    + ("TALOS_EDGE_CERT_RESOLVER=" + v.resolver + "\n")
    + ("TALOS_EDGE_ENTRYPOINT=" + v.entrypoint + "\n")
    + "TALOS_EDGE_PROVIDER=traefik\n"
  }

  function Lines(lines: seq<string>): string
  {
    if lines == [] then "" else lines[0] + "\n" + Lines(lines[1..])
  }

  lemma {:induction false} JoinIsLines(lines: seq<string>)
    requires lines != []
    ensures Join(lines, '\n') + "\n" == Lines(lines)
  {
    if |lines| > 1 {
      JoinIsLines(lines[1..]);
      var rest := Join(lines[1..], '\n');
      assert lines[0] + ['\n'] + rest + "\n" == lines[0] + "\n" + (rest + "\n");
    } else {
      assert lines[1..] == [] && lines[0] + "\n" + "" == lines[0] + "\n";
    }
  }

  function LineFor(k: string, v: string): string
  {
    if v == "" then "" else k + "=" + v + "\n"
  }

  lemma EntriesHead(k: string, rest: seq<string>, u: map<string, string>)
    requires k in u
    ensures Lines(Entries([k] + rest, u)) == LineFor(k, u[k]) + Lines(Entries(rest, u))
  {
    assert ([k] + rest)[1..] == rest;
    if u[k] != "" {
      assert ([Entry(k, u[k])] + Entries(rest, u))[1..] == Entries(rest, u);
      assert LineFor(k, u[k]) == Entry(k, u[k]) + "\n";
    } else {
      assert [] + Entries(rest, u) == Entries(rest, u);
    }
  }

  lemma LineIs(k: string, begin: string, v: string)
    requires begin == k + "="
    ensures LineFor(k, v) == if v == "" then "" else begin + v + "\n"
  {
  }

  lemma Begins()
    ensures DOMAIN + "=" == "TALOS_DOMAIN=" && ACME_EMAIL + "=" == "TALOS_ACME_EMAIL="
         && PROXY_MODE + "=" == "TALOS_PROXY_MODE=" && EDGE_NETWORK + "=" == "TALOS_EDGE_NETWORK="
         && EDGE_CERT_RESOLVER + "=" == "TALOS_EDGE_CERT_RESOLVER=" && EDGE_ENTRYPOINT + "=" == "TALOS_EDGE_ENTRYPOINT="
         && EDGE_PROVIDER + "=" == "TALOS_EDGE_PROVIDER="
  {
  }

  lemma ConstantLines()
    ensures "TALOS_PROXY_MODE=" + "external" + "\n" == "TALOS_PROXY_MODE=external\n"
         && "TALOS_PROXY_MODE=" + "internal" + "\n" == "TALOS_PROXY_MODE=internal\n"
         && "TALOS_EDGE_PROVIDER=" + "traefik" + "\n" == "TALOS_EDGE_PROVIDER=traefik\n"
  {
  }

  /** The seven lines as the file has them. */
  lemma LinesAre(i: UpdateInput, at: Installation, host: string, port: nat)
    ensures var u, v := Updates(i), Saved(Updates(i), at, host, port);
      && LineFor(DOMAIN, Get(u, DOMAIN)) == (if v.domain == "" then "" else "TALOS_DOMAIN=" + v.domain + "\n")
      && LineFor(ACME_EMAIL, Get(u, ACME_EMAIL)) == (if v.email == "" then "" else "TALOS_ACME_EMAIL=" + v.email + "\n")
      && LineFor(PROXY_MODE, Get(u, PROXY_MODE)) == (if v.proxy.External? then "TALOS_PROXY_MODE=external\n" else "TALOS_PROXY_MODE=internal\n")
      && LineFor(EDGE_NETWORK, Get(u, EDGE_NETWORK)) == "TALOS_EDGE_NETWORK=" + v.network + "\n"
      && LineFor(EDGE_CERT_RESOLVER, Get(u, EDGE_CERT_RESOLVER)) == "TALOS_EDGE_CERT_RESOLVER=" + v.resolver + "\n"
      && LineFor(EDGE_ENTRYPOINT, Get(u, EDGE_ENTRYPOINT)) == "TALOS_EDGE_ENTRYPOINT=" + v.entrypoint + "\n"
      && LineFor(EDGE_PROVIDER, Get(u, EDGE_PROVIDER)) == "TALOS_EDGE_PROVIDER=traefik\n"
  {
    hide TrimSpace, Updates, ParseProxyMode, ConfiguredURL, LineFor,
         DOMAIN, ACME_EMAIL, PROXY_MODE, EDGE_NETWORK, EDGE_CERT_RESOLVER, EDGE_PROVIDER, EDGE_ENTRYPOINT;
    var u := Updates(i);
    UpdatesAre(i);
    Begins();
    ConstantLines();
    ModesAreClean(ParseProxyMode(i.proxy));
    LineIs(DOMAIN, "TALOS_DOMAIN=", u[DOMAIN]);
    LineIs(ACME_EMAIL, "TALOS_ACME_EMAIL=", u[ACME_EMAIL]);
    LineIs(PROXY_MODE, "TALOS_PROXY_MODE=", u[PROXY_MODE]);
    LineIs(EDGE_NETWORK, "TALOS_EDGE_NETWORK=", u[EDGE_NETWORK]);
    LineIs(EDGE_CERT_RESOLVER, "TALOS_EDGE_CERT_RESOLVER=", u[EDGE_CERT_RESOLVER]);
    LineIs(EDGE_ENTRYPOINT, "TALOS_EDGE_ENTRYPOINT=", u[EDGE_ENTRYPOINT]);
    LineIs(EDGE_PROVIDER, "TALOS_EDGE_PROVIDER=", u[EDGE_PROVIDER]);
  }

  /** The lines for the seven keys, one after the other. */
  lemma SevenLines(u: map<string, string>, k1: string, k2: string, k3: string, k4: string, k5: string, k6: string, k7: string)
    requires k1 in u && k2 in u && k3 in u && k4 in u && k5 in u && k6 in u && k7 in u
    ensures Lines(Entries([k1, k2, k3, k4, k5] + [k6, k7], u))
         == LineFor(k1, u[k1]) + LineFor(k2, u[k2]) + LineFor(k3, u[k3]) + LineFor(k4, u[k4])
            + LineFor(k5, u[k5]) + LineFor(k6, u[k6]) + LineFor(k7, u[k7])
  {
    hide LineFor, Lines, Entries;
    EntriesHead(k7, [], u);
    NoEntries(u);
    EntriesHead(k6, [k7], u);
    EntriesHead(k5, [k6, k7], u);
    EntriesHead(k4, [k5, k6, k7], u);
    EntriesHead(k3, [k4, k5, k6, k7], u);
    EntriesHead(k2, [k3, k4, k5, k6, k7], u);
    EntriesHead(k1, [k2, k3, k4, k5, k6, k7], u);
    assert [k7] + [] == [k7] && [k6] + [k7] == [k6, k7] && [k5] + [k6, k7] == [k5, k6, k7];
    assert [k4] + [k5, k6, k7] == [k4, k5, k6, k7] && [k3] + [k4, k5, k6, k7] == [k3, k4, k5, k6, k7];
    assert [k2] + [k3, k4, k5, k6, k7] == [k2, k3, k4, k5, k6, k7];
    assert [k1] + [k2, k3, k4, k5, k6, k7] == [k1, k2, k3, k4, k5] + [k6, k7];
    Reassociate(LineFor(k1, u[k1]), LineFor(k2, u[k2]), LineFor(k3, u[k3]), LineFor(k4, u[k4]),
                LineFor(k5, u[k5]), LineFor(k6, u[k6]), LineFor(k7, u[k7]));
  }

  lemma NoEntries(u: map<string, string>)
    ensures Lines(Entries([], u)) == ""
  {
  }

  lemma Reassociate(a: string, b: string, c: string, d: string, e: string, f: string, g: string)
    ensures a + (b + (c + (d + (e + (f + (g + "")))))) == a + b + c + d + e + f + g
  {
  }

  /** All seven keys, in the order in which they are appended. */
  lemma FreshOrder(u: map<string, string>)
    requires u.Keys == {DOMAIN, ACME_EMAIL, PROXY_MODE, EDGE_PROVIDER, EDGE_NETWORK, EDGE_CERT_RESOLVER, EDGE_ENTRYPOINT}
    ensures AppendOrder(u) == PREFERRED + [EDGE_ENTRYPOINT, EDGE_PROVIDER]
  {
    KeysDiffer();
    EntrypointFirst();
    var all := [DOMAIN, ACME_EMAIL, PROXY_MODE, EDGE_NETWORK, EDGE_CERT_RESOLVER, EDGE_PROVIDER, EDGE_ENTRYPOINT];
    RestOfKeys(all, u);
    IncreasingUnique(Listing(u.Keys - InPreferred()), [EDGE_ENTRYPOINT, EDGE_PROVIDER]);
  }

  lemma RestOfKeys(all: seq<string>, u: map<string, string>)
    requires all == [DOMAIN, ACME_EMAIL, PROXY_MODE, EDGE_NETWORK, EDGE_CERT_RESOLVER, EDGE_PROVIDER, EDGE_ENTRYPOINT]
    requires Distinct(all)
    requires u.Keys == {DOMAIN, ACME_EMAIL, PROXY_MODE, EDGE_PROVIDER, EDGE_NETWORK, EDGE_CERT_RESOLVER, EDGE_ENTRYPOINT}
    ensures u.Keys - InPreferred() == {EDGE_ENTRYPOINT, EDGE_PROVIDER}
  {
    hide DOMAIN, ACME_EMAIL, PROXY_MODE, EDGE_NETWORK, EDGE_CERT_RESOLVER, EDGE_PROVIDER, EDGE_ENTRYPOINT;
    assert all[5] == EDGE_PROVIDER && all[6] == EDGE_ENTRYPOINT && PREFERRED == all[..5];
    assert EDGE_PROVIDER !in all[..5] && EDGE_ENTRYPOINT !in all[..5];
    assert PREFERRED[0] == DOMAIN && PREFERRED[1] == ACME_EMAIL && PREFERRED[2] == PROXY_MODE
        && PREFERRED[3] == EDGE_NETWORK && PREFERRED[4] == EDGE_CERT_RESOLVER;
  }

  lemma EntrypointFirst()
    ensures Increasing([EDGE_ENTRYPOINT, EDGE_PROVIDER])
  {
    hide Below;
    assert EDGE_ENTRYPOINT[..11] == "TALOS_EDGE_" == EDGE_PROVIDER[..11];
    DifferenceDecides(EDGE_ENTRYPOINT, EDGE_PROVIDER, 11);
  }

  /** The first Save writes the seven values as a new env file; an empty domain and an empty
      email have no line. */
  lemma FirstSaveWrites(input: UpdateInput, at: Installation, host: string, port: nat)
    ensures Output([], Updates(input)) == FreshFile(Saved(Updates(input), at, host, port))
  {
    hide TrimSpace, DefaultString, Updates, ParseProxyMode, ConfiguredURL, Lines, Entries, AppendOrder, Listing, Join,
         DOMAIN, ACME_EMAIL, PROXY_MODE, EDGE_NETWORK, EDGE_CERT_RESOLVER, EDGE_PROVIDER, EDGE_ENTRYPOINT;
    var u := Updates(input);
    UpdatesAre(input);
    FreshOrder(u);
    var lines := Entries(PREFERRED + [EDGE_ENTRYPOINT, EDGE_PROVIDER], u);
    FromNothing(u);
    SevenLines(u, DOMAIN, ACME_EMAIL, PROXY_MODE, EDGE_NETWORK, EDGE_CERT_RESOLVER, EDGE_ENTRYPOINT, EDGE_PROVIDER);
    LinesAre(input, at, host, port);
    EndsInLine(lines);
  }

  lemma FromNothing(u: map<string, string>)
    ensures OutputLines([], u) == Entries(AppendOrder(u), u)
  {
    hide Entries, AppendOrder;
  }

  lemma EndsInLine(lines: seq<string>)
    requires Lines(lines) != "\n" && Lines(lines) != "" && (|Lines(lines)| >= 2 ==> Lines(lines)[|Lines(lines)| - 2] != '\n')
    ensures Terminated(Join(lines, '\n')) == Lines(lines)
  {
    hide Join, Lines;
    if lines == [] {
      NoLines();
    } else {
      JoinIsLines(lines);
    }
  }

  lemma NoLines()
    ensures Lines([]) == ""
  {
  }

  // Save and Load agree.

  predicate InputOnOneLine(i: UpdateInput)
  {
    '\n' !in i.domain && '\n' !in i.email && '\n' !in i.network && '\n' !in i.resolver && '\n' !in i.entrypoint
  }

  lemma DefaultsAreClean(v: string, fallback: string)
    requires fallback != "" && Trimmed(fallback) && '\n' !in fallback && '\n' !in v
    ensures var d := DefaultString(v, fallback);
            d != "" && Trimmed(d) && '\n' !in d && DefaultString(d, fallback) == d
  {
    TrimSpaceTrimmed(v);
    TrimSpaceTrimmed(DefaultString(v, fallback));
  }

  predicate InCapitals(k: string)
  {
    |k| > 0 && k[0] == 'T' && forall i :: 0 <= i < |k| ==> 'A' <= k[i] <= 'Z' || k[i] == '_'
  }

  lemma CapitalsArePlain(k: string)
    requires InCapitals(k)
    ensures Plain(k)
  {
  }

  lemma OldKeysArePlain()
    ensures Plain(DOMAIN) && Plain(ACME_EMAIL) && Plain(PROXY_MODE)
  {
    hide Plain;
    CapitalsArePlain(DOMAIN);
    CapitalsArePlain(ACME_EMAIL);
    CapitalsArePlain(PROXY_MODE);
  }

  lemma KeysArePlain()
    ensures Plain(DOMAIN) && Plain(ACME_EMAIL) && Plain(PROXY_MODE) && Plain(EDGE_PROVIDER)
            && Plain(EDGE_NETWORK) && Plain(EDGE_CERT_RESOLVER) && Plain(EDGE_ENTRYPOINT)
  {
    hide Plain;
    OldKeysArePlain();
    CapitalsArePlain(EDGE_PROVIDER);
    CapitalsArePlain(EDGE_NETWORK);
    CapitalsArePlain(EDGE_CERT_RESOLVER);
    CapitalsArePlain(EDGE_ENTRYPOINT);
  }

  /** The seven keys do not get in each other's way. */
  lemma UpdatesAre(i: UpdateInput)
    ensures var u := Updates(i);
      && u.Keys == {DOMAIN, ACME_EMAIL, PROXY_MODE, EDGE_PROVIDER, EDGE_NETWORK, EDGE_CERT_RESOLVER, EDGE_ENTRYPOINT}
      && u[DOMAIN] == TrimSpace(i.domain) && u[ACME_EMAIL] == TrimSpace(i.email)
      && u[PROXY_MODE] == ProxyText(ParseProxyMode(i.proxy)) && u[EDGE_PROVIDER] == "traefik"
      && u[EDGE_NETWORK] == DefaultString(i.network, "traefik-public")
      && u[EDGE_CERT_RESOLVER] == DefaultString(i.resolver, "letsencrypt")
      && u[EDGE_ENTRYPOINT] == DefaultString(i.entrypoint, "websecure")
  {
    hide DOMAIN, ACME_EMAIL, PROXY_MODE, EDGE_NETWORK, EDGE_CERT_RESOLVER, EDGE_PROVIDER, EDGE_ENTRYPOINT,
         TrimSpace, DefaultString, ParseProxyMode, ProxyText;
    KeysDiffer();
    var all := [DOMAIN, ACME_EMAIL, PROXY_MODE, EDGE_NETWORK, EDGE_CERT_RESOLVER, EDGE_PROVIDER, EDGE_ENTRYPOINT];
    assert all[0] == DOMAIN && all[1] == ACME_EMAIL && all[2] == PROXY_MODE && all[3] == EDGE_NETWORK
        && all[4] == EDGE_CERT_RESOLVER && all[5] == EDGE_PROVIDER && all[6] == EDGE_ENTRYPOINT;
  }

  lemma ConstantsAreClean()
    ensures Trimmed("traefik-public") && Trimmed("letsencrypt") && Trimmed("websecure") && Trimmed("traefik")
    ensures '\n' !in "traefik-public" && '\n' !in "letsencrypt" && '\n' !in "websecure" && '\n' !in "traefik"
  {
  }

  lemma ModesAreClean(p: ProxyMode)
    ensures var t := ProxyText(p); Trimmed(t) && '\n' !in t && ParseProxyMode(t) == p
  {
    hide TrimSpace;
    assert "internal"[0] != "external"[0];
    TrimSpaceTrimmed(ProxyText(p));
  }

  lemma UpdatesAreClean(i: UpdateInput)
    requires InputOnOneLine(i)
    ensures var u := Updates(i); PlainKeys(u) && OneLine(u) && TrimmedValues(u)
    ensures var u := Updates(i);
      && TrimSpace(u[DOMAIN]) == u[DOMAIN] && TrimSpace(u[ACME_EMAIL]) == u[ACME_EMAIL]
      && DefaultString(u[EDGE_NETWORK], "traefik-public") == u[EDGE_NETWORK]
      && DefaultString(u[EDGE_CERT_RESOLVER], "letsencrypt") == u[EDGE_CERT_RESOLVER]
      && DefaultString(u[EDGE_ENTRYPOINT], "websecure") == u[EDGE_ENTRYPOINT]
  {
    hide TrimSpace, DefaultString, Updates, Plain, Trimmed, ProxyText, ParseProxyMode,
         DOMAIN, ACME_EMAIL, PROXY_MODE, EDGE_NETWORK, EDGE_CERT_RESOLVER, EDGE_PROVIDER, EDGE_ENTRYPOINT;
    UpdatesAre(i);
    KeysArePlain();
    ConstantsAreClean();
    ModesAreClean(ParseProxyMode(i.proxy));
    TrimSpaceTrimmed(i.domain);
    TrimSpaceTrimmed(i.email);
    TrimSpaceTrimmed(TrimSpace(i.domain));
    TrimSpaceTrimmed(TrimSpace(i.email));
    DefaultsAreClean(i.network, "traefik-public");
    DefaultsAreClean(i.resolver, "letsencrypt");
    DefaultsAreClean(i.entrypoint, "websecure");
  }

  /** What Load will find for an updated key, in terms of the file before the edit. */
  function Found(lines: seq<string>, k: string, v: string): string
  {
    var o := if v != "" && !HasRaw(lines, k) then Some(v) else Outcome(lines, k, v);
    if o.Some? then o.value else ""
  }

  /** For every key, what Load makes of what it will find is what was saved. */
  predicate LoadsBack(lines: seq<string>, u: map<string, string>)
  {
    && TrimSpace(Found(lines, DOMAIN, Get(u, DOMAIN))) == Get(u, DOMAIN)
    && TrimSpace(Found(lines, ACME_EMAIL, Get(u, ACME_EMAIL))) == Get(u, ACME_EMAIL)
    && ParseProxyMode(Found(lines, PROXY_MODE, Get(u, PROXY_MODE))) == ParseProxyMode(Get(u, PROXY_MODE))
    && DefaultString(Found(lines, EDGE_NETWORK, Get(u, EDGE_NETWORK)), "traefik-public") == Get(u, EDGE_NETWORK)
    && DefaultString(Found(lines, EDGE_CERT_RESOLVER, Get(u, EDGE_CERT_RESOLVER)), "letsencrypt") == Get(u, EDGE_CERT_RESOLVER)
    && DefaultString(Found(lines, EDGE_ENTRYPOINT, Get(u, EDGE_ENTRYPOINT)), "websecure") == Get(u, EDGE_ENTRYPOINT)
  }

  lemma ParsedGet(values: map<string, string>, lines: seq<string>, k: string)
    requires Parses(values, lines)
    ensures Get(values, k) == if Lookup(lines, k).Some? then Lookup(lines, k).value else ""
  {
  }

  lemma FoundIsParsed(before: Option<string>, u: map<string, string>, values: map<string, string>, k: string)
    requires PlainKeys(u) && OneLine(u) && TrimmedValues(u) && k in u
    requires Parses(values, LinesOf(Some(Output(LinesOf(before), u))))
    ensures Get(values, k) == Found(LinesOf(before), k, u[k])
  {
    hide Output, Parses, Lookup, Outcome, Split, PlainKeys, OneLine, TrimmedValues, Get;
    ParsedAfterUpdate(LinesOf(before), u, k);
    ParsedGet(values, Split(Output(LinesOf(before), u), '\n'), k);
  }

  lemma SameFieldsExactly(values: map<string, string>, lines: seq<string>, u: map<string, string>, at: Installation, host: string, port: nat)
    requires DOMAIN in u && ACME_EMAIL in u && PROXY_MODE in u && EDGE_PROVIDER in u
    requires EDGE_NETWORK in u && EDGE_CERT_RESOLVER in u && EDGE_ENTRYPOINT in u
    requires forall k | k in u :: Get(values, k) == Found(lines, k, u[k])
    ensures Loaded(values, at, host, port) == Saved(u, at, host, port) <==> LoadsBack(lines, u)
  {
    hide TrimSpace, DefaultString, ParseProxyMode, ConfiguredURL, Found,
         DOMAIN, ACME_EMAIL, PROXY_MODE, EDGE_NETWORK, EDGE_CERT_RESOLVER, EDGE_PROVIDER, EDGE_ENTRYPOINT;
  }

  /** Save then Load, with the same host and port and whatever the file held before: the same
      Snapshot if and only if the lines that stay do not say otherwise. */
  lemma SaveLoadExactly(before: Option<string>, input: UpdateInput, values: map<string, string>, at: Installation, host: string, port: nat)
    requires InputOnOneLine(input)
    requires Parses(values, LinesOf(Some(Output(LinesOf(before), Updates(input)))))
    ensures Loaded(values, at, host, port) == Saved(Updates(input), at, host, port)
       <==> LoadsBack(LinesOf(before), Updates(input))
  {
    hide TrimSpace, DefaultString, ParseProxyMode, ConfiguredURL, Output, Plain, Trimmed, Updates, Parses,
         LoadsBack, Loaded, Saved, Found, PlainKeys, OneLine, TrimmedValues,
         DOMAIN, ACME_EMAIL, PROXY_MODE, EDGE_NETWORK, EDGE_CERT_RESOLVER, EDGE_PROVIDER, EDGE_ENTRYPOINT;
    var u, lines := Updates(input), LinesOf(before);
    UpdatesAreClean(input);
    UpdatesAre(input);
    forall k | k in u ensures Get(values, k) == Found(lines, k, u[k]) {
      FoundIsParsed(before, u, values, k);
    }
    SameFieldsExactly(values, lines, u, at, host, port);
  }

  lemma TakingEffectIsFound(lines: seq<string>, k: string, v: string)
    requires TakesEffect(lines, k, v)
    ensures Found(lines, k, v) == v
  {
    hide Lookup, Outcome, FirstRaw;
    OutcomeByPosition(lines, k, v);
  }

  /** In particular when every update takes effect, as it does for keys that are on one line at
      most and not indented. */
  lemma LoadReturnsWhatSaveReturned(before: Option<string>, input: UpdateInput, values: map<string, string>,
                                    at: Installation, host: string, port: nat)
    requires InputOnOneLine(input)
    requires Parses(values, LinesOf(Some(Output(LinesOf(before), Updates(input)))))
    requires forall k | k in Updates(input) :: TakesEffect(LinesOf(before), k, Updates(input)[k])
    ensures Loaded(values, at, host, port) == Saved(Updates(input), at, host, port)
  {
    hide TakesEffect, TrimSpace, DefaultString, ParseProxyMode, Output, Plain, Trimmed, Updates, Parses, Found, Loaded, Saved,
         DOMAIN, ACME_EMAIL, PROXY_MODE, EDGE_NETWORK, EDGE_CERT_RESOLVER, EDGE_PROVIDER, EDGE_ENTRYPOINT;
    UpdatesAreClean(input);
    UpdatesAre(input);
    SaveLoadExactly(before, input, values, at, host, port);
    forall k | k in Updates(input) ensures Found(LinesOf(before), k, Updates(input)[k]) == Updates(input)[k] {
      TakingEffectIsFound(LinesOf(before), k, Updates(input)[k]);
    }
  }
}
