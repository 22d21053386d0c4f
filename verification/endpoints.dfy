/**
 The public wrappers: each one names an API module and builds that module's
 parameters from its arguments. Identifiers that may be given either as a
 number or as a name (domains, packages, locations) are sent under an `_id`
 key when `isNumeric` accepts them and under the plain key otherwise.
 */
module Endpoints {
  import opened Optional
  import opened Text
  import opened JsNumber
  import opened Objects
  import opened Helpers
  import opened Gateway

  /** What a wrapper hands to the gateway: the module name and the parameters. */
  datatype Call = Call(name: string, params: Object<string>)

  /** A parameter value in a JavaScript condition: missing and empty values are false. */
  predicate Truthy(v: Option<string>) {
    v.Some? && v.value != []
  }

  /** The text a value becomes when a string is expected: a missing value reads `"undefined"`. */
  function JsString(v: Option<string>): string {
    match v
    case Some(s) => s
    case None => "undefined"
  }

  // ---------------------------------------------------------------------------
  // Identifier routing
  // ---------------------------------------------------------------------------

  /** The key an identifier is sent under: `idKey` when `isNumeric` accepts it, `nameKey` otherwise. */
  function RouteKey(ident: string, idKey: string, nameKey: string): (k: string)
    ensures HasNumericPrefix(ident) ==> k == idKey
    ensures !HasNumericPrefix(ident) ==> k == nameKey
  {
    if IsNumeric(ident) then idKey else nameKey
  }

  /**
   Sends `ident` under `idKey` when it is numeric and under `nameKey`
   otherwise; nothing else changes.
   */
  function Route(data: Object<string>, idKey: string, nameKey: string, ident: string): (r: Object<string>)
    requires idKey != nameKey
    ensures IsNumeric(ident) ==> Get(r, idKey) == Some(ident) && Get(r, nameKey) == Get(data, nameKey)
    ensures !IsNumeric(ident) ==> Get(r, nameKey) == Some(ident) && Get(r, idKey) == Get(data, idKey)
    ensures forall k :: k != idKey && k != nameKey ==> Get(r, k) == Get(data, k)
  {
    Set(data, RouteKey(ident, idKey, nameKey), ident)
  }

  /** Routing into parameters that have neither key appends exactly one of them. */
  lemma {:induction false} RouteAppends(data: Object<string>, idKey: string, nameKey: string, ident: string)
    requires idKey != nameKey && !HasKey(data, idKey) && !HasKey(data, nameKey)
    ensures Route(data, idKey, nameKey, ident) == data + [(RouteKey(ident, idKey, nameKey), ident)]
    ensures HasKey(Route(data, idKey, nameKey, ident), idKey) <==> IsNumeric(ident)
    ensures HasKey(Route(data, idKey, nameKey, ident), nameKey) <==> !IsNumeric(ident)
  {
  }

  /** Parameters with the single property `k`. */
  lemma {:induction false} Single(k: string, v: string, other: string)
    requires k != other
    ensures !HasKey([(k, v)], other)
  {
  }

  /** The parameter names the wrappers use are pairwise different. */
  lemma {:induction false} KeyNames()
    ensures "pack" != "pack_id" && "pack" != "package" && "pack_id" != "package"
    ensures "domain_id" != "domain" && "location_id" != "location"
    ensures "domain_id" != "location_id" && "domain_id" != "location"
    ensures "domain" != "location_id" && "domain" != "location"
    ensures "domain_id" != "pack" && "domain_id" != "pack_id" && "domain_id" != "package"
    ensures "domain" != "pack" && "domain" != "pack_id" && "domain" != "package"
    ensures "ip" != "domain_id" && "ip" != "domain"
    ensures "reason" != "domain_id" && "reason" != "domain"
    ensures "password" != "domain_id" && "password" != "domain"
  {
  }

  /**
   `createAccount`'s and `modifyAccount`'s package step: a truthy `pack` moves
   to `pack_id` when numeric and to `package` otherwise, and `pack` is removed;
   a missing or empty `pack` leaves the parameters alone.
   */
  function RoutePack(data: Object<string>): (r: Object<string>)
    ensures !Truthy(Get(data, "pack")) ==> r == data
    ensures Truthy(Get(data, "pack")) ==>
      && !HasKey(r, "pack")
      && var p := Get(data, "pack").value;
         if IsNumeric(p) then Get(r, "pack_id") == Some(p) && Get(r, "package") == Get(data, "package")
         else Get(r, "package") == Some(p) && Get(r, "pack_id") == Get(data, "pack_id")
    ensures forall k :: k != "pack" && k != "pack_id" && k != "package" ==> Get(r, k) == Get(data, k)
  {
    match Get(data, "pack")
    case Some(p) =>
      if p != [] then
        KeyNames();
        Move(data, "pack", "pack_id", "package", p)
      else data
    case None => data
  }

  // Routes `v` and removes the property `from` it came in.
  function Move(data: Object<string>, from: string, idKey: string, nameKey: string, v: string): (r: Object<string>)
    requires from != idKey && from != nameKey && idKey != nameKey
    ensures !HasKey(r, from)
    ensures IsNumeric(v) ==> Get(r, idKey) == Some(v) && Get(r, nameKey) == Get(data, nameKey)
    ensures !IsNumeric(v) ==> Get(r, nameKey) == Some(v) && Get(r, idKey) == Get(data, idKey)
    ensures forall k :: k != from && k != idKey && k != nameKey ==> Get(r, k) == Get(data, k)
  {
    Delete(Route(data, idKey, nameKey, v), from)
  }

  // ---------------------------------------------------------------------------
  // My account
  // ---------------------------------------------------------------------------

  /** `viewMyAccount`: no parameters. */
  function ViewMyAccount(): Call {
    Call("viewMyAccount", [])
  }

  /** `getMessages`: the caller's parameters, or none when only a callback is given. */
  function GetMessages(data: Option<Object<string>>): Call {
    Call("getMessages", data.GetOr([]))
  }

  /** `viewMessage`: the message id alone. */
  function ViewMessage(messageId: string): Call {
    Call("viewMessage", [("message_id", messageId)])
  }

  /** `getNewsPosts`: a `limit` only when one is given. */
  function GetNewsPosts(limit: Option<string>): (c: Call)
    ensures c.name == "getNewsPosts"
    ensures Get(c.params, "limit") == limit && |c.params| <= 1
  {
    Call("getNewsPosts", match limit case Some(l) => [("limit", l)] case None => [])
  }

  /** `viewNewsPost`: the post id alone, sent as `news_id`. */
  function ViewNewsPost(postId: string): Call {
    Call("viewNewsPost", [("news_id", postId)])
  }

  // ---------------------------------------------------------------------------
  // Accounts
  // ---------------------------------------------------------------------------

  /** The filter keys `getAccounts` passes on. */
  const AccountFilters: seq<string> := ["search", "status", "pack_id"]

  /** `getAccounts`: when filters are given, one `filters` parameter holding their terms. */
  function GetAccounts(filters: Option<Object<string>>): (c: Call)
    ensures c.name == "getAccounts"
    ensures filters.None? ==> c.params == []
    ensures filters.Some? ==> c.params == [("filters", PrepareFilter(filters.value, Some(AccountFilters)))]
  {
    match filters
    case None => Call("getAccounts", [])
    case Some(f) => Call("getAccounts", [("filters", PrepareFilter(f, Some(AccountFilters)))])
  }

  /**
   The `filters` parameter of `getAccounts` reads back as exactly the given
   `search`, `status` and `pack_id` filters, in the caller's order; any other
   filter is dropped.
   */
  lemma {:induction false} GetAccountsFilterTerms(filters: Object<string>)
    requires Separable(filters)
    ensures var c := GetAccounts(Some(filters));
      && Get(c.params, "filters").Some?
      && var terms := DecodeFilter(Get(c.params, "filters").value);
         && terms == Filter(filters, AllowedBy(Some(AccountFilters)))
         && (forall k :: Get(terms, k) == if k in AccountFilters then Get(filters, k) else None)
  {
    PrepareFilterRoundTrip(filters, Some(AccountFilters));
  }

  /** `createAccount`: the caller's parameters after the package step. */
  function CreateAccount(data: Object<string>): (c: Call)
    ensures c.name == "createAccount" && c.params == RoutePack(data)
  {
    Call("createAccount", RoutePack(data))
  }

  /** `viewAccount`: the domain alone, under the key routing picks. */
  function ViewAccount(domain: string): (c: Call)
    ensures c.name == "viewAccount"
    ensures c.params == [(RouteKey(domain, "domain_id", "domain"), domain)]
  {
    Call("viewAccount", DomainOnly(domain))
  }

  /** The domain alone, routed. */
  function DomainOnly(domain: string): (r: Object<string>)
    ensures r == [(RouteKey(domain, "domain_id", "domain"), domain)]
  {
    KeyNames();
    RouteAppends([], "domain_id", "domain", domain);
    Route([], "domain_id", "domain", domain)
  }

  /** `modifyAccount`: the caller's parameters with the domain routed, then the package step. */
  function ModifyAccount(domain: string, data: Object<string>): (c: Call)
    ensures c.name == "modifyAccount"
    ensures c.params == RoutePack(Route(data, "domain_id", "domain", domain))
    ensures Get(c.params, RouteKey(domain, "domain_id", "domain")) == Some(domain)
  {
    KeyNames();
    Call("modifyAccount", RoutePack(Route(data, "domain_id", "domain", domain)))
  }

  /** One named parameter, then a routed identifier. */
  function AfterOne(k: string, v: string, idKey: string, nameKey: string, ident: string): (r: Object<string>)
    requires idKey != nameKey && k != idKey && k != nameKey
    ensures r == [(k, v), (RouteKey(ident, idKey, nameKey), ident)]
  {
    Single(k, v, idKey);
    Single(k, v, nameKey);
    RouteAppends([(k, v)], idKey, nameKey, ident);
    Pair((k, v), (RouteKey(ident, idKey, nameKey), ident));
    Route([(k, v)], idKey, nameKey, ident)
  }

  lemma {:induction false} Pair<T>(a: T, b: T)
    ensures [a] + [b] == [a, b]
  {
  }

  /** `changeAccountPassword`: the password, then the routed domain. */
  function ChangeAccountPassword(domain: string, password: string): (c: Call)
    ensures c.name == "changeAccountPassword"
    ensures c.params == [("password", password), (RouteKey(domain, "domain_id", "domain"), domain)]
  {
    KeyNames();
    Call("changeAccountPassword", AfterOne("password", password, "domain_id", "domain", domain))
  }

  /**
   `changeAccountPackage` as it is written: the package test looks at the
   parameters' own `pack`, which is never set, so the test reads `"undefined"`
   and the package always goes out as `package`.
   */
  function ChangeAccountPackageAsWritten(domain: string, pack: string): (c: Call)
    ensures c.name == "changeAccountPackage"
    ensures c.params == [(RouteKey(domain, "domain_id", "domain"), domain), ("package", pack)]
  {
    var data := DomainOnly(domain);
    var key := if IsNumeric(JsString(Get(data, "pack"))) then "pack_id" else "package";
    NoPackYet(domain);
    Pair(data[0], ("package", pack));
    Call("changeAccountPackage", Set(data, key, pack))
  }

  // The routed domain alone has neither `pack` nor `package`, and the test therefore reads `"undefined"`.
  lemma {:induction false} NoPackYet(domain: string)
    ensures Get(DomainOnly(domain), "pack") == None && !HasKey(DomainOnly(domain), "package")
    ensures !IsNumeric(JsString(Get(DomainOnly(domain), "pack")))
  {
    KeyNames();
    var rk := RouteKey(domain, "domain_id", "domain");
    Single(rk, domain, "pack");
    Single(rk, domain, "package");
    NoLeadingDigitNotNumeric("undefined");
  }

  /** A numeric package id goes out as a package name: `"42"` is sent as `package`, not `pack_id`. */
  lemma {:induction false} ChangeAccountPackageNumericId(domain: string, n: nat)
    ensures IsNumeric(DecimalString(n))
    ensures ChangeAccountPackageAsWritten(domain, DecimalString(n)).params[1] == ("package", DecimalString(n))
  {
    ParseIntDecimal(n);
  }

  /** Two routed identifiers under four distinct keys. */
  function RouteTwo(first: string, idKey1: string, nameKey1: string, second: string, idKey2: string, nameKey2: string): (r: Object<string>)
    requires idKey1 != nameKey1 && idKey2 != nameKey2
    requires idKey1 != idKey2 && idKey1 != nameKey2 && nameKey1 != idKey2 && nameKey1 != nameKey2
    ensures r == [(RouteKey(first, idKey1, nameKey1), first), (RouteKey(second, idKey2, nameKey2), second)]
  {
    RouteAppends([], idKey1, nameKey1, first);
    var data := Route([], idKey1, nameKey1, first);
    Single(RouteKey(first, idKey1, nameKey1), first, idKey2);
    Single(RouteKey(first, idKey1, nameKey1), first, nameKey2);
    RouteAppends(data, idKey2, nameKey2, second);
    Route(data, idKey2, nameKey2, second)
  }

  /** `changeAccountPackage` with the package routed like the domain, by `isNumeric(pack)`. */
  function ChangeAccountPackage(domain: string, pack: string): (c: Call)
    ensures c.name == "changeAccountPackage"
    ensures c.params == [(RouteKey(domain, "domain_id", "domain"), domain), (RouteKey(pack, "pack_id", "package"), pack)]
  {
    KeyNames();
    Call("changeAccountPackage", RouteTwo(domain, "domain_id", "domain", pack, "pack_id", "package"))
  }

  /** With the package routed, a numeric id goes out as `pack_id` and a name as `package`. */
  lemma {:induction false} ChangeAccountPackageRoutes(domain: string, n: nat, name: string)
    requires name != [] && !IsWhitespace(name[0]) && !IsSign(name[0]) && !IsDecimalDigit(name[0])
    ensures ChangeAccountPackage(domain, DecimalString(n)).params[1] == ("pack_id", DecimalString(n))
    ensures ChangeAccountPackage(domain, name).params[1] == ("package", name)
  {
    ParseIntDecimal(n);
    NoLeadingDigitNotNumeric(name);
  }

  /** `suspendAccount`: the reason, then the routed domain. */
  function SuspendAccount(domain: string, reason: string): (c: Call)
    ensures c.name == "suspendAccount"
    ensures c.params == [("reason", reason), (RouteKey(domain, "domain_id", "domain"), domain)]
  {
    KeyNames();
    Call("suspendAccount", AfterOne("reason", reason, "domain_id", "domain", domain))
  }

  /** `unsuspendAccount`: the domain alone, routed. */
  function UnsuspendAccount(domain: string): (c: Call)
    ensures c.name == "unsuspendAccount"
    ensures c.params == [(RouteKey(domain, "domain_id", "domain"), domain)]
  {
    Call("unsuspendAccount", DomainOnly(domain))
  }

  /** `terminateAccount`: the domain alone, routed. */
  function TerminateAccount(domain: string): (c: Call)
    ensures c.name == "terminateAccount"
    ensures c.params == [(RouteKey(domain, "domain_id", "domain"), domain)]
  {
    Call("terminateAccount", DomainOnly(domain))
  }

  // ---------------------------------------------------------------------------
  // Locations, packages, migrations, tools
  // ---------------------------------------------------------------------------

  /** `getLocations`, `getNetworkStatus`, `getPackages` and `getMigrations` send no parameters. */
  function Listing(name: string): Call
    requires name in ["getLocations", "getNetworkStatus", "getPackages", "getMigrations"]
  {
    Call(name, [])
  }

  /** `addMigration`: the routed domain, then the routed location. */
  function AddMigration(domain: string, location: string): (c: Call)
    ensures c.name == "addMigration"
    ensures c.params == [(RouteKey(domain, "domain_id", "domain"), domain), (RouteKey(location, "location_id", "location"), location)]
  {
    KeyNames();
    Call("addMigration", RouteTwo(domain, "domain_id", "domain", location, "location_id", "location"))
  }

  /** `fixPermissions`: the domain alone, routed. */
  function FixPermissions(domain: string): (c: Call)
    ensures c.name == "fixPermissions"
    ensures c.params == [(RouteKey(domain, "domain_id", "domain"), domain)]
  {
    Call("fixPermissions", DomainOnly(domain))
  }

  /** `checkFirewallBan`: the address, then the routed domain. */
  function CheckFirewallBan(ip: string, domain: string): (c: Call)
    ensures c.name == "checkFirewallBan"
    ensures c.params == [("ip", ip), (RouteKey(domain, "domain_id", "domain"), domain)]
  {
    KeyNames();
    Call("checkFirewallBan", AfterOne("ip", ip, "domain_id", "domain", domain))
  }

  /** `removeFirewallBan`: the address, then the routed domain. */
  function RemoveFirewallBan(ip: string, domain: string): (c: Call)
    ensures c.name == "removeFirewallBan"
    ensures c.params == [("ip", ip), (RouteKey(domain, "domain_id", "domain"), domain)]
  {
    KeyNames();
    Call("removeFirewallBan", AfterOne("ip", ip, "domain_id", "domain", domain))
  }

  // ---------------------------------------------------------------------------
  // What the plain wrappers send
  // ---------------------------------------------------------------------------

  /** `viewMyAccount` sends the module name and the API key and nothing else. */
  lemma {:induction false} ViewMyAccountSent(key: string)
    ensures Outgoing(key, ViewMyAccount().name, ViewMyAccount().params) == [("module", "viewMyAccount"), ("api_key", key)]
  {
    AppendTwo([], ("module", "viewMyAccount"), ("api_key", key));
  }

  /**
   `getMessages` sends the caller's parameters followed by the module name
   and the API key; with only a callback, it sends just those two.
   */
  lemma {:induction false} GetMessagesSent(key: string, data: Option<Object<string>>)
    ensures var sent := Outgoing(key, GetMessages(data).name, GetMessages(data).params);
      && (data.None? ==> sent == [("module", "getMessages"), ("api_key", key)])
      && (data.Some? && !HasKey(data.value, "module") && !HasKey(data.value, "api_key") ==>
            sent == data.value + [("module", "getMessages"), ("api_key", key)])
      && (data.Some? ==> forall k :: k != "module" && k != "api_key" ==> Get(sent, k) == Get(data.value, k))
  {
    AppendTwo([], ("module", "getMessages"), ("api_key", key));
  }

  /** `viewMessage` sends the message id, then the module name and the API key. */
  lemma {:induction false} ViewMessageSent(key: string, messageId: string)
    ensures Outgoing(key, ViewMessage(messageId).name, ViewMessage(messageId).params)
      == [("message_id", messageId), ("module", "viewMessage"), ("api_key", key)]
  {
    Single("message_id", messageId, "module");
    Single("message_id", messageId, "api_key");
    OneThenTwo(("message_id", messageId), ("module", "viewMessage"), ("api_key", key));
  }

  /** `viewNewsPost` sends the post id as `news_id`, then the module name and the API key. */
  lemma {:induction false} ViewNewsPostSent(key: string, postId: string)
    ensures Outgoing(key, ViewNewsPost(postId).name, ViewNewsPost(postId).params)
      == [("news_id", postId), ("module", "viewNewsPost"), ("api_key", key)]
  {
    Single("news_id", postId, "module");
    Single("news_id", postId, "api_key");
    OneThenTwo(("news_id", postId), ("module", "viewNewsPost"), ("api_key", key));
  }

  /** The listings send the module name and the API key and nothing else. */
  lemma {:induction false} ListingSent(key: string, name: string)
    requires name in ["getLocations", "getNetworkStatus", "getPackages", "getMigrations"]
    ensures Outgoing(key, Listing(name).name, Listing(name).params) == [("module", name), ("api_key", key)]
  {
    AppendTwo([], ("module", name), ("api_key", key));
  }

  lemma {:induction false} OneThenTwo<T>(a: T, b: T, c: T)
    ensures [a] + [b, c] == [a, b, c]
  {
  }

  // ---------------------------------------------------------------------------
  // How identifiers are read
  // ---------------------------------------------------------------------------

  /**
   A decimal id goes to `domain_id` and a name that starts with a letter goes
   to `domain`. A name that starts with a digit, such as `4chan.org`, is
   numeric to `parseInt` and goes to `domain_id` as well.
   */
  lemma {:induction false} DomainRouting(n: nat, name: string, rest: string)
    requires name != [] && !IsWhitespace(name[0]) && !IsSign(name[0]) && !IsDecimalDigit(name[0])
    requires rest == [] || (!IsDecimalDigit(rest[0]) && rest[0] != 'x' && rest[0] != 'X')
    ensures RouteKey(DecimalString(n), "domain_id", "domain") == "domain_id"
    ensures RouteKey(name, "domain_id", "domain") == "domain"
    ensures RouteKey(DecimalString(n) + rest, "domain_id", "domain") == "domain_id"
  {
    ParseIntDecimal(n);
    NoLeadingDigitNotNumeric(name);
    DigitLedNumeric(DecimalString(n), rest);
  }

  // Decimal digits followed by anything that does not continue them are numeric.
  lemma {:induction false} DigitLedNumeric(d: string, rest: string)
    requires d != [] && AllDigitsIn(d, false)
    requires rest == [] || (!IsDecimalDigit(rest[0]) && rest[0] != 'x' && rest[0] != 'X')
    ensures IsNumeric(d + rest)
  {
    assert !HasHexPrefix(d + rest) by {
      if |d + rest| >= 2 && (d + rest)[0] == '0' {
        assert (d + rest)[1] == if |d| >= 2 then d[1] else rest[0];
      }
    }
    assert "" + "" + RadixPrefix(false) + d + rest == d + rest;
    ParseIntReadsDigits("", "", false, d, rest);
  }

}
