/** The permission gate in front of the camera: the three run-time grants the
    activity checks, the request it issues when one is missing, and the test
    it applies to the grant results that come back. */
module Permissions {

  datatype Permission = Camera | RecordAudio | WriteExternalStorage | Other(name: string)

  /** `PackageManager.PERMISSION_GRANTED` and `PERMISSION_DENIED`. */
  const PermissionGranted: int := 0
  const PermissionDenied: int := -1

  /** The request code the activity passes to `requestPermissions` and
      expects back in `onRequestPermissionsResult`. */
  const RequestCode: int := 101

  /** The permissions requested, in the order of the request's array. */
  const Requested: seq<Permission> := [Camera, RecordAudio, WriteExternalStorage]

  /** `checkPermissions`: the conjunction of the camera, microphone and
      storage-write grants, each read as `checkSelfPermission(...)`. It holds
      exactly when every permission the activity would request is granted,
      so a single missing grant blocks, and no other permission matters. */
  function CheckPermissions(selfStatus: Permission -> int): (ok: bool)
    ensures ok <==> forall p | p in Requested :: selfStatus(p) == PermissionGranted
  {
    selfStatus(Camera) == PermissionGranted &&
    selfStatus(RecordAudio) == PermissionGranted &&
    selfStatus(WriteExternalStorage) == PermissionGranted
  }

  /** Kotlin's `grantResults.all { it == PERMISSION_GRANTED }`: scans from the
      front and fails at the first result that is not a grant, so it holds of
      an empty array. */
  function AllGranted(grantResults: seq<int>): (ok: bool)
    ensures ok <==> forall i | 0 <= i < |grantResults| :: grantResults[i] == PermissionGranted
    decreases |grantResults|
  {
    if grantResults == [] then true
    else if grantResults[0] != PermissionGranted then false
    else AllGranted(grantResults[1..])
  }

  /** The test of `onRequestPermissionsResult`: start the preview exactly when
      the answer is to request 101 and no result is a denial (vacuously so
      when the platform returns no results, as on a cancelled dialog). */
  function PreviewOnResult(requestCode: int, grantResults: seq<int>): (start: bool)
    ensures start <==> requestCode == RequestCode &&
                       forall i | 0 <= i < |grantResults| :: grantResults[i] == PermissionGranted
    ensures requestCode == RequestCode && grantResults == [] ==> start
    ensures PermissionDenied in grantResults ==> !start
  {
    requestCode == RequestCode && AllGranted(grantResults)
  }
}
