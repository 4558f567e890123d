/**
 * The DDoS monitoring service: the configuration it reads at start-up, the
 * protected-call registry it builds from the handlers marked as protected, and
 * the shared hit counter and ban stack that requests and the two timers update.
 * The timers are not modelled as timers: their callbacks are the methods Decay
 * and ReleaseOne, which the environment calls.
 */
module Monitoring {
  import opened Wrappers
  import opened Text
  import opened RateLimit

  // ---------------------------------------------------------------------------
  // Protected-call registry

  /**
   * A request handler marked as protected: the HTTP methods of its routing
   * attribute (HttpGet, HttpPost, HttpPut or HttpDelete), the name of the type
   * that declares it, and the attribute's route template (None for null).
   */
  datatype Handler = Handler(httpMethods: seq<string>, typeName: string, template: Option<string>)

  /** The character `.` of a .NET regular expression matches anything but a line feed. */
  predicate NoNewline(s: string) {
    '\n' !in s
  }

  /**
   * The pattern `^(.+?)/{.+}` matches `t` with its group ending at index i: a
   * non-empty first line part t[..i], then "/{", then at least one character
   * and a "}" on the same line.
   */
  predicate PlaceholderAt(t: string, i: int) {
    && 1 <= i && i + 2 <= |t| && t[i] == '/' && t[i + 1] == '{' && NoNewline(t[..i])
    && exists j | i + 3 <= j < |t| :: t[j] == '}' && NoNewline(t[i + 2..j])
  }

  /**
   * The end of the lazy group `(.+?)`: the least index at or after `from` at
   * which the pattern matches, or None when it does not match.
   */
  function FirstPlaceholderFrom(t: string, from: nat): (r: Option<nat>)
    requires from >= 1
    ensures r.Some? ==> from <= r.value && PlaceholderAt(t, r.value)
    ensures r.Some? ==> forall j :: from <= j < r.value ==> !PlaceholderAt(t, j)
    ensures r.None? ==> forall j :: from <= j ==> !PlaceholderAt(t, j)
    decreases |t| - from
  {
    if from + 2 > |t| then None
    else if PlaceholderAt(t, from) then Some(from)
    else FirstPlaceholderFrom(t, from + 1)
  }

  /**
   * The action part of a route template: for a non-empty template, with
   * backslashes turned into slashes, the first group of `^(.+?)/{.+}` when the
   * pattern matches; otherwise nothing.
   */
  function ActionName(template: Option<string>): Option<string> {
    match template
    case None => None
    case Some(t) =>
      if |t| == 0 then None
      else
        var h := ReplaceChar(t, '\\', '/');
        match FirstPlaceholderFrom(h, 1)
        case None => None
        case Some(i) => Some(h[..i])
  }

  /** The controller part: the type name with every "Controller" removed, lower-cased. */
  function ControllerName(typeName: string): string {
    ToLower(ReplaceAll(typeName, "Controller", ""))
  }

  /**
   * The registry string of one protected handler: its first HTTP method
   * upper-cased, a space, the controller name, and "/" plus the lower-cased
   * action name when the template yields one.
   */
  function ProtectedEntry(httpMethod: string, typeName: string, template: Option<string>): (r: string)
    ensures ToUpper(httpMethod) + " " + ControllerName(typeName) <= r
  {
    var definition := ToUpper(httpMethod) + " " + ControllerName(typeName);
    match ActionName(template)
    case Some(action) => if |action| > 0 then definition + "/" + ToLower(action) else definition
    case None => definition
  }

  /** The registry string of a handler, which must have at least one HTTP method. */
  function HandlerEntry(h: Handler): string
    requires |h.httpMethods| > 0
  {
    ProtectedEntry(h.httpMethods[0], h.typeName, h.template)
  }

  /**
   * Without a template, or with one that has no "/{...}" placeholder after a
   * non-empty prefix, the entry is just "METHOD controller".
   */
  lemma EntryWithoutPlaceholder(httpMethod: string, typeName: string, template: Option<string>)
    requires template.None? || forall j :: !PlaceholderAt(ReplaceChar(template.value, '\\', '/'), j)
    ensures ProtectedEntry(httpMethod, typeName, template)
      == ToUpper(httpMethod) + " " + ToLower(ReplaceAll(typeName, "Controller", ""))
  {
  }

  /**
   * With a template whose (backslash-normalised) form first matches at index i,
   * the entry is "METHOD controller/" followed by the lower-cased prefix before
   * that first "/{".
   */
  lemma EntryWithPlaceholder(httpMethod: string, typeName: string, t: string, i: nat)
    requires PlaceholderAt(ReplaceChar(t, '\\', '/'), i)
    requires forall j :: 1 <= j < i ==> !PlaceholderAt(ReplaceChar(t, '\\', '/'), j)
    ensures ProtectedEntry(httpMethod, typeName, Some(t))
      == ToUpper(httpMethod) + " " + ToLower(ReplaceAll(typeName, "Controller", ""))
         + "/" + ToLower(ReplaceChar(t, '\\', '/')[..i])
  {
  }

  /** A route template "Create/{id}" gives the action name "Create": the lazy group stops at the first "/{". */
  lemma TemplateActionName()
    ensures ActionName(Some("Create/{id}")) == Some("Create")
  {
    var t := "Create/{id}";
    assert ReplaceChar(t, '\\', '/') == t;
    assert t[6] == '/' && t[7] == '{' && t[10] == '}';
    assert NoNewline(t[..6]) && NoNewline(t[8..10]);
    assert PlaceholderAt(t, 6);
    assert forall j :: 1 <= j < 6 ==> t[j] != '/';
    assert FirstPlaceholderFrom(t, 1) == Some(6);
    assert t[..6] == "Create";
  }

  /** Removing "Controller" from "InfoController" leaves "Info". */
  lemma InfoControllerName()
    ensures ControllerName("InfoController") == "info"
  {
    var n, c, info := "InfoController", "Controller", "Info";
    assert ReplaceAll(n, c, "") == info by {
      assert n == info + c;
      assert info[0] != c[0] && info[1] != c[0] && info[2] != c[0] && info[3] != c[0];
      ReplaceTrailing(n, info, c);
    }
    var l := ToLower(info);
    assert l[0] == 'i' && l[1] == 'n' && l[2] == 'f' && l[3] == 'o';
  }

  /** The one protected handler of the service, InfoController.ApiInfo ([HttpGet], no template), gives "GET info". */
  lemma InfoControllerEntry()
    ensures ProtectedEntry("GET", "InfoController", None) == "GET info"
  {
    assert ToUpper("GET") == "GET" by {
      var u := ToUpper("GET");
      assert u[0] == 'G' && u[1] == 'E' && u[2] == 'T';
    }
    assert ControllerName("InfoController") == "info" by {
      InfoControllerName();
    }
    assert ProtectedEntry("GET", "InfoController", None)
      == ToUpper("GET") + " " + ControllerName("InfoController");
  }

  // ---------------------------------------------------------------------------
  // The service

  /** The settings read once at start-up. */
  datatype Config = Config(
    enabled: bool,
    fullServiceLevelProtection: bool,
    maxHitsPerOrigin: int,
    protectedCalls: seq<string>)

  class DDosAttackMonitoringService {
    const config: Config
    /** The hit counter, keyed by client address. */
    var ipAddresses: map<string, int16>
    /** The ban stack; its last element is the top. */
    var banned: seq<string>

    ghost function State(): MonitorState
      reads this
    {
      MonitorState(ipAddresses, banned)
    }

    ghost predicate Valid()
      reads this
    {
      Good(State(), config.maxHitsPerOrigin)
    }

    /**
     * Reads the settings and builds the protected-call registry, one entry per
     * protected handler, in the order the handlers are given.
     */
    constructor (enabled: bool, fullServiceLevelProtection: bool, maxHitsPerOrigin: int, handlers: seq<Handler>)
      requires forall i :: 0 <= i < |handlers| ==> |handlers[i].httpMethods| > 0
      ensures Valid() && State() == Initial
      ensures config.enabled == enabled && config.fullServiceLevelProtection == fullServiceLevelProtection
      ensures config.maxHitsPerOrigin == maxHitsPerOrigin
      ensures |config.protectedCalls| == |handlers|
      ensures forall i :: 0 <= i < |handlers| ==> config.protectedCalls[i] == HandlerEntry(handlers[i])
    {
      var calls: seq<string> := [];
      for i := 0 to |handlers|
        invariant |calls| == i
        invariant forall k :: 0 <= k < i ==> calls[k] == HandlerEntry(handlers[k])
      {
        calls := calls + [HandlerEntry(handlers[i])];
      }
      config := Config(enabled, fullServiceLevelProtection, maxHitsPerOrigin, calls);
      ipAddresses := map[];
      banned := [];
    }

    /** CheckIpAddress: count one hit from `ip`, banning it when its counter already stands at the threshold. */
    method RecordHit(ip: string)
      requires Valid()
      modifies this
      ensures Valid()
      ensures State() == Hit(old(State()), ip, config.maxHitsPerOrigin)
    {
      HitPreservesGood(State(), ip, config.maxHitsPerOrigin);
      if ip !in ipAddresses {
        ipAddresses := ipAddresses[ip := 1];
      } else if ipAddresses[ip] as int == config.maxHitsPerOrigin {
        if ip !in banned {
          banned := banned + [ip];
        }
        ipAddresses := ipAddresses - {ip};
      } else {
        ipAddresses := ipAddresses[ip := Inc16(ipAddresses[ip])];
      }
    }

    /** Records the hit first, then answers whether `ip` is on the ban stack. */
    method IsDDosAttack(ip: string) returns (attack: bool)
      requires Valid()
      modifies this
      ensures Valid()
      ensures State() == Hit(old(State()), ip, config.maxHitsPerOrigin)
      ensures attack <==> ip in banned
    {
      RecordHit(ip);
      attack := ip in banned;
    }

    /** The decay timer's callback: every counter goes down by one and those reaching zero are removed. */
    method Decay()
      requires Valid()
      modifies this
      ensures Valid()
      ensures State() == Decayed(old(State()))
    {
      DecayPreservesGood(State(), config.maxHitsPerOrigin);
      var keys := ipAddresses.Keys;
      while keys != {}
        invariant keys <= old(ipAddresses).Keys
        invariant banned == old(banned)
        invariant forall k :: k in keys ==> k in ipAddresses && ipAddresses[k] == old(ipAddresses)[k]
        invariant forall k :: k in ipAddresses ==> k in old(ipAddresses)
        invariant forall k :: k in old(ipAddresses) && k !in keys ==>
          (k in ipAddresses <==> Dec16(old(ipAddresses)[k]) != 0)
        invariant forall k :: k in ipAddresses && k !in keys ==> ipAddresses[k] == Dec16(old(ipAddresses)[k])
        decreases keys
      {
        var key :| key in keys;
        ipAddresses := ipAddresses[key := Dec16(ipAddresses[key])];
        if ipAddresses[key] == 0 {
          ipAddresses := ipAddresses - {key};
        }
        keys := keys - {key};
      }
      assert ipAddresses == DecayedCounts(old(ipAddresses));
    }

    /** The release timer's callback: pop the most recently banned client, if any. */
    method ReleaseOne()
      requires Valid()
      modifies this
      ensures Valid()
      ensures State() == Released(old(State()))
    {
      ReleaseEffect(State(), config.maxHitsPerOrigin);
      if |banned| > 0 {
        banned := banned[..|banned| - 1];
      }
    }
  }
}
