/** The records exchanged with Vast.ai: an offer (a rentable machine as the
    offers search returns it), a rented instance, and the per-instance summary
    row. Only the offer fields the modelled operations read are kept. */
module Types {
  import opened Numeric

  /** A Vast.ai offer. `id` is the offer (ask) id that is passed to the create
      request; `askContractId` is the separate contract id the API also
      reports. */
  datatype Offer = Offer(
    id: U64,
    askContractId: U64,
    hostId: U64,
    machineId: U64,
    gpuName: string,
    geolocation: string,
    dphTotal: F64)

  /** An instance rented from an offer. */
  datatype VastInstance = VastInstance(offer: Offer, instanceId: U64, shouldDrop: bool)

  /** `VastInstance::new`: a freshly rented instance is never marked for dropping. */
  function NewInstance(instanceId: U64, offer: Offer): (v: VastInstance)
    ensures v.instanceId == instanceId && v.offer == offer
    ensures !v.shouldDrop
  {
    VastInstance(offer, instanceId, false)
  }

  /** A row of the summary response. */
  datatype InstanceOverview = InstanceOverview(
    instanceId: U64,
    gpu: string,
    location: string,
    machineId: U64,
    hostId: U64,
    costPerHour: F64)

  /** `From<Offer> for InstanceOverview`. The overview's `instanceId` is the
      offer id, not the contract id. */
  function OverviewOf(offer: Offer): (o: InstanceOverview)
    ensures o.instanceId == offer.id
    ensures o.gpu == offer.gpuName && o.location == offer.geolocation
    ensures o.machineId == offer.machineId && o.hostId == offer.hostId
    ensures o.costPerHour == offer.dphTotal
  {
    InstanceOverview(offer.id, offer.gpuName, offer.geolocation, offer.machineId, offer.hostId, offer.dphTotal)
  }

  /** The overview is a projection: two offers give the same overview exactly
      when they agree on the six projected fields, whatever their contract ids. */
  lemma OverviewProjection(a: Offer, b: Offer)
    ensures OverviewOf(a) == OverviewOf(b) <==>
      && a.id == b.id && a.gpuName == b.gpuName && a.geolocation == b.geolocation
      && a.machineId == b.machineId && a.hostId == b.hostId && a.dphTotal == b.dphTotal
  {
  }
}
