/**
 * The profile form: copies of the view model's fields that the handlers edit,
 * the `hasChanges` flag that enables "Guardar", and the two dialogs.
 */
module ProfileScreen {
  import opened Wrappers
  import opened Preferences
  import opened Profile

  class ProfileForm {
    const vm: ProfileViewModel
    var imageUri: Option<Uri>
    var firstName: string
    var lastName: string
    var laboralStatus: Option<LaboralStatus>
    var showStatusDialog: bool
    var hasChanges: bool
    var showChooseImageDialog: bool

    /** The profile the form would save. */
    function Data(): ProfileData
      reads this
    {
      ProfileData(firstName, lastName, laboralStatus, imageUri)
    }

    /** The fields start as the view model's, with nothing changed and no dialog open. */
    constructor (vm: ProfileViewModel)
      ensures this.vm == vm
      ensures Data() == vm.Data()
      ensures !hasChanges && !showStatusDialog && !showChooseImageDialog
    {
      this.vm := vm;
      imageUri := vm.profilePhotoUri;
      firstName := vm.firstName;
      lastName := vm.lastName;
      laboralStatus := vm.laboralStatus;
      showStatusDialog := false;
      hasChanges := false;
      showChooseImageDialog := false;
    }

    /** The first-name field: any edit counts as a change, even one that restores the value. */
    method EditFirstName(value: string)
      modifies this
      ensures Data() == old(Data()).(firstName := value)
      ensures hasChanges
      ensures showStatusDialog == old(showStatusDialog) && showChooseImageDialog == old(showChooseImageDialog)
    {
      firstName := value;
      hasChanges := true;
    }

    /** The last-name field, likewise. */
    method EditLastName(value: string)
      modifies this
      ensures Data() == old(Data()).(lastName := value)
      ensures hasChanges
      ensures showStatusDialog == old(showStatusDialog) && showChooseImageDialog == old(showChooseImageDialog)
    {
      lastName := value;
      hasChanges := true;
    }

    /** A click on the status card opens the status dialog. */
    method OpenStatusDialog()
      modifies this`showStatusDialog
      ensures showStatusDialog
    {
      showStatusDialog := true;
    }

    /** Dismissing the status dialog picks nothing. */
    method DismissStatusDialog()
      modifies this`showStatusDialog
      ensures !showStatusDialog
    {
      showStatusDialog := false;
    }

    /** A row or radio button of the status dialog: sets the status, marks a change, closes the dialog. */
    method PickStatus(status: LaboralStatus)
      modifies this
      ensures Data() == old(Data()).(laboralStatus := Some(status))
      ensures hasChanges && !showStatusDialog
      ensures showChooseImageDialog == old(showChooseImageDialog)
    {
      laboralStatus := Some(status);
      hasChanges := true;
      showStatusDialog := false;
    }

    /** A click on the photo opens the camera-or-gallery dialog. */
    method OpenChooseImageDialog()
      modifies this`showChooseImageDialog
      ensures showChooseImageDialog
    {
      showChooseImageDialog := true;
    }

    /** Dismissing the image dialog. */
    method DismissChooseImageDialog()
      modifies this`showChooseImageDialog
      ensures !showChooseImageDialog
    {
      showChooseImageDialog := false;
    }

    /** "Galería": closes the dialog and launches the picker, whose answer is `GalleryResult`. */
    method ChooseGallery()
      modifies this`showChooseImageDialog
      ensures !showChooseImageDialog
    {
      showChooseImageDialog := false;
    }

    /** The picker's answer: a picked image replaces the photo and marks a change; no answer changes nothing. */
    method GalleryResult(uri: Option<Uri>)
      modifies this
      ensures uri.Some? ==> Data() == old(Data()).(photoUri := uri) && hasChanges
      ensures uri.None? ==> Data() == old(Data()) && hasChanges == old(hasChanges)
      ensures showStatusDialog == old(showStatusDialog) && showChooseImageDialog == old(showChooseImageDialog)
    {
      if uri.Some? {
        imageUri := uri;
        hasChanges := true;
      }
    }

    /**
     * "Cámara": closes the dialog, puts the URI of a new temporary file (`tmp`)
     * in the photo before the camera runs, and launches it; its answer is `CameraResult`.
     */
    method ChooseCamera(tmp: Uri)
      modifies this
      ensures Data() == old(Data()).(photoUri := Some(tmp))
      ensures !showChooseImageDialog
      ensures hasChanges == old(hasChanges) && showStatusDialog == old(showStatusDialog)
    {
      showChooseImageDialog := false;
      imageUri := Some(tmp);
    }

    /** The camera's answer: only a success with a photo URI marks a change; the photo itself stays as it is. */
    method CameraResult(success: bool)
      modifies this
      ensures Data() == old(Data())
      ensures hasChanges == (old(hasChanges) || (success && imageUri.Some?))
      ensures showStatusDialog == old(showStatusDialog) && showChooseImageDialog == old(showChooseImageDialog)
    {
      if success && imageUri.Some? {
        hasChanges := true;
      }
    }

    /** "Guardar", enabled iff something changed: saves the four current values and clears the flag. */
    method Save()
      requires hasChanges
      modifies this, vm, vm.prefs
      ensures !hasChanges
      ensures Data() == old(Data())
      ensures vm.Data() == Data()
      ensures vm.prefs.entries == WriteProfile(old(vm.prefs.entries), Data())
    {
      vm.SaveProfileData(firstName, lastName, laboralStatus, imageUri);
      hasChanges := false;
    }
  }

  /**
   * A cancelled camera capture leaves the temporary file's URI in the photo
   * without marking a change; a save after any other edit stores that URI.
   */
  method CancelledCapture(form: ProfileForm, tmp: Uri, name: string)
    modifies form, form.vm, form.vm.prefs
    ensures form.imageUri == Some(tmp)
    ensures form.vm.profilePhotoUri == Some(tmp)
  {
    form.ChooseCamera(tmp);
    form.CameraResult(false);
    form.EditFirstName(name);
    form.Save();
  }
}
