/** Translation of a PersistentVolume between the in-tree OpenStack Cinder volume
    source and the Cinder CSI volume source.

    The translator type itself has no state, so its operations are module-level
    members. The PersistentVolume is an object: both translations rewrite its
    volume-source fields in place and hand back the same object. */
module OpenStackCinder {
  import opened Wrappers

  /** Name of the CSI driver for Cinder. */
  const CinderDriverName: string := "cinder.csi.openstack.org"
  /** Name of the in-tree plugin for Cinder. */
  const CinderInTreePluginName: string := "kubernetes.io/cinder"

  const InTreeToCSIError: string := "pv is nil or Cinder not defined on pv"
  const CSIToInTreeError: string := "pv is nil or CSI source not defined on pv"

  datatype SecretReference = SecretReference(name: string, namespace: string)

  /** The in-tree Cinder volume source. */
  datatype CinderPersistentVolumeSource = CinderPersistentVolumeSource(
    volumeID: string,
    fsType: string,
    readOnly: bool,
    secretRef: Option<SecretReference>)

  /** The CSI volume source. */
  datatype CSIPersistentVolumeSource = CSIPersistentVolumeSource(
    driver: string,
    volumeHandle: string,
    readOnly: bool,
    fsType: string,
    volumeAttributes: map<string, string>,
    controllerPublishSecretRef: Option<SecretReference>,
    nodeStageSecretRef: Option<SecretReference>,
    nodePublishSecretRef: Option<SecretReference>)

  /** The fields of a PersistentVolume that the translator reads or writes
      (the two volume sources), plus two that it must leave alone. */
  class PersistentVolume {
    var name: string
    var storageClassName: string
    var cinder: Option<CinderPersistentVolumeSource>
    var csi: Option<CSIPersistentVolumeSource>

    constructor (name: string, storageClassName: string,
                 cinder: Option<CinderPersistentVolumeSource>,
                 csi: Option<CSIPersistentVolumeSource>)
      ensures this.name == name && this.storageClassName == storageClassName
      ensures this.cinder == cinder && this.csi == csi
    {
      this.name := name;
      this.storageClassName := storageClassName;
      this.cinder := cinder;
      this.csi := csi;
    }
  }

  /** The plugin supports a volume exactly when it is present and carries an
      in-tree Cinder source. */
  predicate CanSupport(pv: PersistentVolume?)
    reads pv
    ensures CanSupport(pv) <==> pv != null && pv.cinder.Some?
  {
    pv != null && pv.cinder.Some?
  }

  /** Storage-class parameters need no translation: the input comes back as it is. */
  function TranslateInTreeStorageClassParametersToCSI(scParameters: map<string, string>)
    : (r: Result<map<string, string>, string>)
    ensures r.Success? && r.value == scParameters
  {
    Success(scParameters)
  }

  function GetInTreePluginName(): (name: string)
    ensures name == "kubernetes.io/cinder"
  {
    CinderInTreePluginName
  }

  /** Replaces the in-tree Cinder source of `pv` by an equivalent CSI source and
      returns the same object; fails, touching nothing, when `pv` is nil or has no
      Cinder source. */
  method TranslateInTreePVToCSI(pv: PersistentVolume?) returns (r: Result<PersistentVolume, string>)
    modifies pv
    ensures r.Failure? <==> !old(CanSupport(pv))
    ensures r.Failure? ==> r.error == InTreeToCSIError && (pv != null ==> unchanged(pv))
    ensures r.Success? ==>
      && r.value == pv
      && pv.cinder == None
      && pv.csi.Some?
      && pv.csi.value.driver == CinderDriverName
      && pv.csi.value.volumeHandle == old(pv.cinder).value.volumeID
      && pv.csi.value.readOnly == old(pv.cinder).value.readOnly
      && pv.csi.value.fsType == old(pv.cinder).value.fsType
      && pv.csi.value.volumeAttributes == map[]
      && pv.csi.value.controllerPublishSecretRef == None
      && pv.csi.value.nodeStageSecretRef == None
      && pv.csi.value.nodePublishSecretRef == None
      && pv.name == old(pv.name)
      && pv.storageClassName == old(pv.storageClassName)
    ensures r.Success? ==> !CanSupport(pv)
  {
    if pv == null || pv.cinder.None? {
      return Failure(InTreeToCSIError);
    }
    var cinderSource := pv.cinder.value;
    var csiSource := CSIPersistentVolumeSource(
      CinderDriverName, cinderSource.volumeID, cinderSource.readOnly, cinderSource.fsType,
      map[], None, None, None);
    pv.cinder := None;
    pv.csi := Some(csiSource);
    return Success(pv);
  }

  /** Replaces the CSI source of `pv` by an in-tree Cinder source and returns the
      same object; fails, touching nothing, when `pv` is nil or has no CSI source.
      The CSI driver name is not inspected. */
  method TranslateCSIPVToInTree(pv: PersistentVolume?) returns (r: Result<PersistentVolume, string>)
    modifies pv
    ensures r.Failure? <==> (pv == null || old(pv.csi).None?)
    ensures r.Failure? ==> r.error == CSIToInTreeError && (pv != null ==> unchanged(pv))
    ensures r.Success? ==>
      && r.value == pv
      && pv.csi == None
      && pv.cinder == Some(CinderPersistentVolumeSource(
           old(pv.csi).value.volumeHandle, old(pv.csi).value.fsType, old(pv.csi).value.readOnly, None))
      && pv.name == old(pv.name)
      && pv.storageClassName == old(pv.storageClassName)
    ensures r.Success? ==> CanSupport(pv)
  {
    if pv == null || pv.csi.None? {
      return Failure(CSIToInTreeError);
    }
    var csiSource := pv.csi.value;
    var cinderSource := CinderPersistentVolumeSource(
      csiSource.volumeHandle, csiSource.fsType, csiSource.readOnly, None);
    pv.csi := None;
    pv.cinder := Some(cinderSource);
    return Success(pv);
  }

  /** In-tree -> CSI -> in-tree: the volume ID, file-system type and read-only flag
      come back; the secret reference does not survive, and the PV ends with no
      CSI source. */
  method InTreeRoundTrip(pv: PersistentVolume?) returns (ok: bool)
    modifies pv
    ensures ok <==> old(CanSupport(pv))
    ensures !ok ==> pv != null ==> unchanged(pv)
    ensures ok ==>
      && pv.cinder == Some(old(pv.cinder).value.(secretRef := None))
      && pv.csi == None
      && pv.name == old(pv.name)
      && pv.storageClassName == old(pv.storageClassName)
  {
    var toCSI := TranslateInTreePVToCSI(pv);
    if toCSI.Failure? {
      return false;
    }
    var back := TranslateCSIPVToInTree(pv);
    ok := back.Success?;
  }

  /** CSI -> in-tree -> CSI: the volume handle, file-system type and read-only flag
      come back; the driver becomes the Cinder driver whatever it was, and the
      volume attributes and secret references are dropped. */
  method CSIRoundTrip(pv: PersistentVolume?) returns (ok: bool)
    modifies pv
    ensures ok <==> (pv != null && old(pv.csi).Some?)
    ensures !ok ==> pv != null ==> unchanged(pv)
    ensures ok ==>
      && pv.csi == Some(old(pv.csi).value.(
           driver := CinderDriverName, volumeAttributes := map[],
           controllerPublishSecretRef := None, nodeStageSecretRef := None, nodePublishSecretRef := None))
      && pv.cinder == None
      && pv.name == old(pv.name)
      && pv.storageClassName == old(pv.storageClassName)
  {
    var toInTree := TranslateCSIPVToInTree(pv);
    if toInTree.Failure? {
      return false;
    }
    var back := TranslateInTreePVToCSI(pv);
    ok := back.Success?;
  }
}
