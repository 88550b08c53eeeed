/**
 * The instance resource that gpu_chase.py `create_vm_with_gpu` builds and
 * hands to `insert`: resource paths assembled from the caller's names, and
 * fixed disk, accelerator and scheduling settings.
 */
module Provisioner {
  import opened Text
  import opened Compute

  /** `projects/{image_project}/global/images/{image_family}` */
  function SourceImage(imageProject: string, imageFamily: string): string {
    Join(["projects", imageProject, "global", "images", imageFamily])
  }

  /** `zones/{zone}/machineTypes/{machine_type}` */
  function MachineTypePath(zone: string, machineType: string): string {
    Join(["zones", zone, "machineTypes", machineType])
  }

  /** `zones/{zone}/acceleratorTypes/{gpu_type}` */
  function AcceleratorTypePath(zone: string, gpuType: string): string {
    Join(["zones", zone, "acceleratorTypes", gpuType])
  }

  /** `global/networks/{network}` */
  function NetworkPath(network: string): string {
    Join(["global", "networks", network])
  }

  /** `projects/{project}/regions/{region}/subnetworks/{subnetwork}` */
  function SubnetworkPath(project: string, region: string, subnetwork: string): string {
    Join(["projects", project, "regions", region, "subnetworks", subnetwork])
  }

  /**
   * Python's `zone[:-2]`: the zone without its last two characters, taken to be
   * its region. Zones of at most two characters give the empty string.
   */
  function Region(zone: string): string {
    if |zone| <= 2 then "" else zone[..|zone| - 2]
  }

  /** The region and the last two characters make up the zone; a zone of at most two characters has no region. */
  lemma RegionDropsLastTwo(zone: string)
    ensures |zone| >= 2 ==> Region(zone) + zone[|zone| - 2..] == zone
    ensures |zone| <= 2 ==> Region(zone) == ""
  {
  }

  /** For a zone named `<region>-<letter>` the heuristic recovers the region. */
  lemma RegionOfLetteredZone(region: string, letter: char)
    ensures Region(region + "-" + [letter]) == region
  {
    var zone := region + "-" + [letter];
    assert zone[..|zone| - 2] == region;
  }

  /** The instance `create_vm_with_gpu` inserts. */
  function CreateVmWithGpu(
    project: string, zone: string, instanceName: string, network: string, subnetwork: string,
    machineType: string, imageProject: string, imageFamily: string, gpuType: string): Instance
  {
    var disk := AttachedDisk(SourceImage(imageProject, imageFamily), 100, true, true);
    var accelerator := AcceleratorConfig(AcceleratorTypePath(zone, gpuType), 1);
    var region := Region(zone);
    var nic := NetworkInterface(NetworkPath(network), SubnetworkPath(project, region, subnetwork));
    var scheduling := Scheduling("TERMINATE", true);
    Instance(instanceName, [disk], MachineTypePath(zone, machineType), [nic], [accelerator], scheduling)
  }

  /**
   * The instance carries the given name, one 100 GB boot disk deleted with
   * it, one network interface, one accelerator of the GPU type, and is
   * terminated on host maintenance and restarted automatically.
   */
  lemma InstanceSettings(
    project: string, zone: string, instanceName: string, network: string, subnetwork: string,
    machineType: string, imageProject: string, imageFamily: string, gpuType: string)
    ensures var instance := CreateVmWithGpu(project, zone, instanceName, network, subnetwork,
                                            machineType, imageProject, imageFamily, gpuType);
      && instance.name == instanceName
      && |instance.disks| == 1 && |instance.networkInterfaces| == 1
      && instance.disks[0].boot && instance.disks[0].autoDelete && instance.disks[0].diskSizeGb == 100
      && |instance.guestAccelerators| == 1 && instance.guestAccelerators[0].acceleratorCount == 1
      && instance.scheduling == Scheduling("TERMINATE", true)
  {
  }

  /** `Join` of two to six segments, one segment at a time. */
  lemma JoinUnfolds(segments: seq<string>)
    requires 2 <= |segments| <= 6
    ensures Join(segments) == segments[0] + "/" + Join(segments[1..])
    ensures |segments| == 2 ==> Join(segments[1..]) == segments[1]
  {
  }

  /** The image path is the literal `projects/…/global/images/…` with the names in their places. */
  lemma SourceImageSpelledOut(imageProject: string, imageFamily: string)
    ensures SourceImage(imageProject, imageFamily) == "projects/" + imageProject + "/global/images/" + imageFamily
  {
    var segments := ["projects", imageProject, "global", "images", imageFamily];
    JoinUnfolds(segments[3..]);
    JoinUnfolds(segments[2..]);
    JoinUnfolds(segments[1..]);
    JoinUnfolds(segments);
  }

  /** The machine type path is the literal `zones/…/machineTypes/…`. */
  lemma MachineTypeSpelledOut(zone: string, machineType: string)
    ensures MachineTypePath(zone, machineType) == "zones/" + zone + "/machineTypes/" + machineType
  {
    var segments := ["zones", zone, "machineTypes", machineType];
    JoinUnfolds(segments[2..]);
    JoinUnfolds(segments[1..]);
    JoinUnfolds(segments);
  }

  /** The accelerator type path is the literal `zones/…/acceleratorTypes/…`. */
  lemma AcceleratorTypeSpelledOut(zone: string, gpuType: string)
    ensures AcceleratorTypePath(zone, gpuType) == "zones/" + zone + "/acceleratorTypes/" + gpuType
  {
    var segments := ["zones", zone, "acceleratorTypes", gpuType];
    JoinUnfolds(segments[2..]);
    JoinUnfolds(segments[1..]);
    JoinUnfolds(segments);
  }

  /** The network path is the literal `global/networks/…`. */
  lemma NetworkSpelledOut(network: string)
    ensures NetworkPath(network) == "global/networks/" + network
  {
    var segments := ["global", "networks", network];
    JoinUnfolds(segments[1..]);
    JoinUnfolds(segments);
  }

  /** The subnetwork path is the literal `projects/…/regions/…/subnetworks/…`. */
  lemma SubnetworkSpelledOut(project: string, region: string, subnetwork: string)
    ensures SubnetworkPath(project, region, subnetwork)
            == "projects/" + project + "/regions/" + region + "/subnetworks/" + subnetwork
  {
    var segments := ["projects", project, "regions", region, "subnetworks", subnetwork];
    JoinUnfolds(segments[4..]);
    JoinUnfolds(segments[3..]);
    JoinUnfolds(segments[2..]);
    JoinUnfolds(segments[1..]);
    JoinUnfolds(segments);
  }

  /** `projects/<imageProject>/global/images/<imageFamily>`, read back segment by segment. */
  lemma SourceImageSegments(imageProject: string, imageFamily: string)
    requires NoSlash(imageProject) && NoSlash(imageFamily)
    ensures Split(SourceImage(imageProject, imageFamily)) == ["projects", imageProject, "global", "images", imageFamily]
  {
    var segments := ["projects", imageProject, "global", "images", imageFamily];
    assert NoSlash("projects") && NoSlash("global") && NoSlash("images");
    SplitJoin(segments);
  }

  /** `zones/<zone>/machineTypes/<machineType>`, read back segment by segment. */
  lemma MachineTypeSegments(zone: string, machineType: string)
    requires NoSlash(zone) && NoSlash(machineType)
    ensures Split(MachineTypePath(zone, machineType)) == ["zones", zone, "machineTypes", machineType]
  {
    var segments := ["zones", zone, "machineTypes", machineType];
    assert NoSlash("zones") && NoSlash("machineTypes");
    SplitJoin(segments);
  }

  /** `zones/<zone>/acceleratorTypes/<gpuType>`, read back segment by segment. */
  lemma AcceleratorTypeSegments(zone: string, gpuType: string)
    requires NoSlash(zone) && NoSlash(gpuType)
    ensures Split(AcceleratorTypePath(zone, gpuType)) == ["zones", zone, "acceleratorTypes", gpuType]
  {
    var segments := ["zones", zone, "acceleratorTypes", gpuType];
    assert NoSlash("zones") && NoSlash("acceleratorTypes");
    SplitJoin(segments);
  }

  /** `global/networks/<network>`, read back segment by segment. */
  lemma NetworkSegments(network: string)
    requires NoSlash(network)
    ensures Split(NetworkPath(network)) == ["global", "networks", network]
  {
    var segments := ["global", "networks", network];
    assert NoSlash("global") && NoSlash("networks");
    SplitJoin(segments);
  }

  /** `projects/<project>/regions/<region>/subnetworks/<subnetwork>`, read back segment by segment. */
  lemma SubnetworkSegments(project: string, region: string, subnetwork: string)
    requires NoSlash(project) && NoSlash(region) && NoSlash(subnetwork)
    ensures Split(SubnetworkPath(project, region, subnetwork))
            == ["projects", project, "regions", region, "subnetworks", subnetwork]
  {
    var segments := ["projects", project, "regions", region, "subnetworks", subnetwork];
    assert NoSlash("projects") && NoSlash("regions") && NoSlash("subnetworks");
    SplitJoin(segments);
  }

  /**
   * Every path in the instance names the resources it was built from: read back
   * segment by segment, it gives the caller's names in their places, with the
   * region taken from the zone.
   */
  lemma InstancePathSegments(
    project: string, zone: string, instanceName: string, network: string, subnetwork: string,
    machineType: string, imageProject: string, imageFamily: string, gpuType: string)
    requires NoSlash(project) && NoSlash(zone) && NoSlash(network) && NoSlash(subnetwork)
    requires NoSlash(machineType) && NoSlash(imageProject) && NoSlash(imageFamily) && NoSlash(gpuType)
    ensures var instance := CreateVmWithGpu(project, zone, instanceName, network, subnetwork,
                                            machineType, imageProject, imageFamily, gpuType);
      && Split(instance.disks[0].sourceImage) == ["projects", imageProject, "global", "images", imageFamily]
      && Split(instance.machineType) == ["zones", zone, "machineTypes", machineType]
      && Split(instance.guestAccelerators[0].acceleratorType) == ["zones", zone, "acceleratorTypes", gpuType]
      && Split(instance.networkInterfaces[0].network) == ["global", "networks", network]
      && Split(instance.networkInterfaces[0].subnetwork)
         == ["projects", project, "regions", Region(zone), "subnetworks", subnetwork]
  {
    assert NoSlash(Region(zone)) by {
      assert forall c <- Region(zone) :: c in zone;
    }
    SourceImageSegments(imageProject, imageFamily);
    MachineTypeSegments(zone, machineType);
    AcceleratorTypeSegments(zone, gpuType);
    NetworkSegments(network);
    SubnetworkSegments(project, Region(zone), subnetwork);
  }

  /**
   * For a zone `<region>-<letter>`, the subnetwork the instance attaches to is
   * `projects/<project>/regions/<region>/subnetworks/<subnetwork>`.
   */
  lemma SubnetworkInZoneRegion(project: string, region: string, letter: char, subnetwork: string)
    requires NoSlash(project) && NoSlash(region) && NoSlash(subnetwork)
    ensures Split(SubnetworkPath(project, Region(region + "-" + [letter]), subnetwork))
            == ["projects", project, "regions", region, "subnetworks", subnetwork]
  {
    RegionOfLetteredZone(region, letter);
    SubnetworkSegments(project, region, subnetwork);
  }
}
