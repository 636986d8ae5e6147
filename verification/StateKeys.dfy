/**
 The text keys of the manager's caches, internal/alerting/manager.go: "rule:device". The other models use the
 pair itself; these lemmas are the licence to do so.
 */
module StateKeys {
  import opened Text

  function StateKey(rule: nat, device: nat): string { Dec(rule) + ":" + Dec(device) }

  // A key has one colon, right after the rule.
  lemma ColonAt(rule: nat, device: nat, i: nat)
    requires i < |StateKey(rule, device)|
    ensures StateKey(rule, device)[i] == ':' <==> i == |Dec(rule)|
  {
    var s, a, b := StateKey(rule, device), Dec(rule), Dec(device);
    if i < |a| {
      assert s[i] == a[i] && IsDigit(a[i]);
    } else if i > |a| {
      assert s[i] == b[i - |a| - 1] && IsDigit(b[i - |a| - 1]);
    }
  }

  // clearRuleStateMemory removes by this prefix: the keys of the rule and no other.
  lemma RulePrefixExact(rule: nat, device: nat, r: nat)
    ensures HasPrefix(StateKey(rule, device), Dec(r) + ":") <==> rule == r
  {
    var s, p := StateKey(rule, device), Dec(r) + ":";
    if HasPrefix(s, p) {
      assert s[|Dec(r)|] == s[..|p|][|Dec(r)|] == ':';
      ColonAt(rule, device, |Dec(r)|);
      assert Dec(r) == p[..|Dec(r)|] == s[..|Dec(r)|] == Dec(rule);
      DecInjective(rule, r);
    }
    if rule == r { assert s[..|p|] == p; }
  }

  // ClearDeviceState removes cooldowns by this suffix: those of the device and no other.
  lemma DeviceSuffixExact(rule: nat, device: nat, d: nat)
    ensures HasSuffix(StateKey(rule, device), ":" + Dec(d)) <==> device == d
  {
    var s, p := StateKey(rule, device), ":" + Dec(d);
    if HasSuffix(s, p) {
      var i := |s| - |p|;
      assert s[i] == s[i..][0] == ':';
      ColonAt(rule, device, i);
      assert Dec(d) == p[1..] == s[i..][1..] == Dec(device);
      DecInjective(device, d);
    }
    if device == d { assert s[|s| - |p|..] == p; }
  }

  lemma StateKeyInjective(rule: nat, device: nat, r: nat, d: nat)
    requires StateKey(rule, device) == StateKey(r, d)
    ensures rule == r && device == d
  {
    RulePrefixExact(r, d, r);
    RulePrefixExact(rule, device, r);
    DeviceSuffixExact(r, d, d);
    DeviceSuffixExact(rule, device, d);
  }
}
