/** The part of a VM that is configuration, and the comparison of two of them. */
module VmConfig {
  import opened Options

  datatype Config = Config(
    name: string, puuid: string, kind: string, os: string, kernel: string, ramdisk: string, cmdline: string,
    onReboot: string, onPoweroff: string, onCrash: string, mem: int, maxmem: int, vcpus: int,
    vncport: int, vncpasswd: string)

  /** VM_config_cmp, with a NULL second VM as None. */
  function ConfigCmp(a: Config, stored: Option<Config>): (r: nat)
    ensures r == 0 <==> stored == Some(a)
    ensures r <= 1
  {
    if stored.None? then 1
    else
      var b := stored.value;
      if a.name != b.name then 1
      else if a.puuid != b.puuid then 1
      else if a.kind != b.kind then 1
      else if a.os != b.os then 1
      else if a.kernel != b.kernel then 1
      else if a.ramdisk != b.ramdisk then 1
      else if a.cmdline != b.cmdline then 1
      else if a.onReboot != b.onReboot then 1
      else if a.onPoweroff != b.onPoweroff then 1
      else if a.onCrash != b.onCrash then 1
      else if a.mem != b.mem then 1
      else if a.maxmem != b.maxmem then 1
      else if a.vcpus != b.vcpus then 1
      else if a.vncport != b.vncport then 1
      else if a.vncpasswd != b.vncpasswd then 1
      else 0
  }

  /** strstr(name, "-migrating") */
  predicate Migrating(name: string) {
    var mark := "-migrating";
    mark <= name || (name != [] && Migrating(name[1..]))
  }

  /** The mark stands at position i of the name. */
  predicate MarkAt(name: string, i: nat) {
    i <= |name| && "-migrating" <= name[i..]
  }

  lemma {:induction false} MigratingIsMarked(name: string)
    ensures Migrating(name) <==> exists i: nat :: MarkAt(name, i)
  {
    assert name[0..] == name;
    if "-migrating" <= name {
      assert MarkAt(name, 0);
    } else if name != [] {
      MigratingIsMarked(name[1..]);
      assert forall i: nat :: MarkAt(name[1..], i) && i < |name| ==> name[1..][i..] == name[i + 1..];
      if i: nat :| MarkAt(name[1..], i) {
        assert name[1..][i..] == name[i + 1..];
        assert MarkAt(name, i + 1);
      }
      if i: nat :| MarkAt(name, i) {
        assert i > 0 && name[1..][i - 1..] == name[i..];
        assert MarkAt(name[1..], i - 1);
      }
    }
  }
}
