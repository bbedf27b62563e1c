/** How the factory's naming and the clean-up script's selection fit together:
    the clean-up removes exactly the devices the factory made, except the one
    whose serial is "DDQA". */
module DeviceLifecycle {
  import opened Strings
  import DeviceFactory
  import CleanUp

  /** A device named by the factory from a four-letter serial is removed by
      the clean-up exactly when its serial is not "DDQA". */
  lemma {:induction false} CleanUpRemovesFactoryDevices(serial: string)
    requires |serial| == 4
    ensures CleanUp.ThingActionFor(DeviceFactory.DevName(serial)) == CleanUp.Remove <==> serial != "DDQA"
  {
    var name := DeviceFactory.DevName(serial);
    assert name == name[..4] + name[4..];
    assert name[..|CleanUp.Prefix|] == CleanUp.Prefix;
    if serial == "DDQA" {
      assert name == CleanUp.ProtectedPrefix;
    } else {
      assert name[4..] != CleanUp.ProtectedPrefix[4..];
    }
  }
}
