/** How the operator console and the device agent fit together. */
module Fleet {
  import FeatureSelector
  import VirtualDeviceModel

  /**
   * Whatever number the operator types in the direct-method menu, the method
   * name it sends is one the device registers a handler for, so it never
   * reaches the device's default handler.
   */
  lemma MenuMethodsAreRegistered(choice: int)
    ensures VirtualDeviceModel.HandlerFor(FeatureSelector.MethodFor(choice)) != VirtualDeviceModel.DefaultHandler
    ensures choice !in {2, 3, 4} ==>
      VirtualDeviceModel.HandlerFor(FeatureSelector.MethodFor(choice)) == VirtualDeviceModel.EmergencyStopHandler
  {
  }
}
