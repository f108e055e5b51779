/** The toast notifications the screens raise (`useToast`). */
module Notify {
  /** `variant: "destructive"` marks an error toast; a toast without a title has title "". */
  datatype Toast = Toast(destructive: bool, title: string, description: string)
}
