/** The fixed text of the setup scripts `vscode_packager.py` writes, around the install lines. */
module SetupScriptText {

  /** The preamble of the macOS script (vscode_packager.py:419). */
  const MacHeader: string := @"#!/bin/bash

# VS Code Setup Script
echo ""=== VS Code Setup with Custom Settings ===""
echo ""This script will configure VS Code with your custom settings and extensions""

# Get the directory where this script is located
SCRIPT_DIR=""$( cd ""$( dirname ""${BASH_SOURCE[0]}"" )"" && pwd )""
SETTINGS_DIR=""$SCRIPT_DIR/VSCodeSettings""
VS_CODE_USER_DIR=""$HOME/Library/Application Support/Code/User""

# Check if VS Code is installed
if ! command -v code &> /dev/null; then
    echo ""VS Code is not installed. Downloading and installing...""
    # Download VS Code
    curl -L ""https://code.visualstudio.com/sha/download?build=stable&os=darwin-universal"" -o ""$SCRIPT_DIR/VSCode.zip""
    
    # Extract VS Code
    unzip -q ""$SCRIPT_DIR/VSCode.zip"" -d ""$SCRIPT_DIR""
    
    # Move to Applications
    echo ""Moving VS Code to Applications folder...""
    mv ""$SCRIPT_DIR/Visual Studio Code.app"" ""/Applications/""
    
    # Clean up
    rm ""$SCRIPT_DIR/VSCode.zip""
    
    # Add to PATH
    echo 'export PATH=""/Applications/Visual Studio Code.app/Contents/Resources/app/bin:$PATH""' >> ~/.zshrc
    echo 'export PATH=""/Applications/Visual Studio Code.app/Contents/Resources/app/bin:$PATH""' >> ~/.bash_profile
    
    echo ""VS Code installed successfully!""
else
    echo ""VS Code is already installed.""
fi

# Create VS Code user directory if it doesn't exist
mkdir -p ""$VS_CODE_USER_DIR""
mkdir -p ""$VS_CODE_USER_DIR/snippets""

# Copy settings
echo ""Copying settings...""
cp ""$SETTINGS_DIR/settings.json"" ""$VS_CODE_USER_DIR/""
cp ""$SETTINGS_DIR/keybindings.json"" ""$VS_CODE_USER_DIR/""

# Copy snippets
echo ""Copying snippets...""
cp -R ""$SETTINGS_DIR/snippets/""* ""$VS_CODE_USER_DIR/snippets/""

# Install extensions
echo ""Installing extensions...""
"

  /** The preamble of the Windows script (vscode_packager.py:485). */
  const WindowsHeader: string := @"@echo off
echo === VS Code Setup with Custom Settings ===
echo This script will configure VS Code with your custom settings and extensions

set SCRIPT_DIR=%~dp0
set SETTINGS_DIR=%SCRIPT_DIR%VSCodeSettings
set VS_CODE_USER_DIR=%APPDATA%\Code\User

REM Check if VS Code is installed
where code >nul 2>nul
if %ERRORLEVEL% NEQ 0 (
    echo VS Code is not installed. Downloading and installing...
    
    REM Download VS Code
    powershell -Command ""Invoke-WebRequest -Uri 'https://code.visualstudio.com/sha/download?build=stable&os=win32-x64-user' -OutFile '%SCRIPT_DIR%\VSCodeSetup.exe'""
    
    REM Install VS Code
    echo Installing VS Code...
    start /wait %SCRIPT_DIR%\VSCodeSetup.exe /verysilent /mergetasks=!runcode
    
    REM Clean up
    del %SCRIPT_DIR%\VSCodeSetup.exe
    
    echo VS Code installed successfully!
) else (
    echo VS Code is already installed.
)

REM Create VS Code user directory if it doesn't exist
if not exist ""%VS_CODE_USER_DIR%"" mkdir ""%VS_CODE_USER_DIR%""
if not exist ""%VS_CODE_USER_DIR%\snippets"" mkdir ""%VS_CODE_USER_DIR%\snippets""

REM Copy settings
echo Copying settings...
copy ""%SETTINGS_DIR%\settings.json"" ""%VS_CODE_USER_DIR%\"" /Y
copy ""%SETTINGS_DIR%\keybindings.json"" ""%VS_CODE_USER_DIR%\"" /Y

REM Copy snippets
echo Copying snippets...
xcopy ""%SETTINGS_DIR%\snippets\*"" ""%VS_CODE_USER_DIR%\snippets\"" /E /Y

REM Install extensions
echo Installing extensions...
"

  /** The preamble of the Linux script (vscode_packager.py:543). */
  const LinuxHeader: string := @"#!/bin/bash

# VS Code Setup Script
echo ""=== VS Code Setup with Custom Settings ===""
echo ""This script will configure VS Code with your custom settings and extensions""

# Get the directory where this script is located
SCRIPT_DIR=""$( cd ""$( dirname ""${BASH_SOURCE[0]}"" )"" && pwd )""
SETTINGS_DIR=""$SCRIPT_DIR/VSCodeSettings""
VS_CODE_USER_DIR=""$HOME/.config/Code/User""

# Check if VS Code is installed
if ! command -v code &> /dev/null; then
    echo ""VS Code is not installed. Downloading and installing...""
    
    # Detect package manager
    if command -v apt &> /dev/null; then
        # Debian/Ubuntu
        echo ""Detected Debian/Ubuntu system""
        
        # Download VS Code
        wget -O ""$SCRIPT_DIR/vscode.deb"" ""https://code.visualstudio.com/sha/download?build=stable&os=linux-deb-x64""
        
        # Install VS Code
        sudo apt install -y ""$SCRIPT_DIR/vscode.deb""
        
        # Clean up
        rm ""$SCRIPT_DIR/vscode.deb""
        
    elif command -v dnf &> /dev/null; then
        # Fedora/RHEL
        echo ""Detected Fedora/RHEL system""
        
        # Download VS Code
        wget -O ""$SCRIPT_DIR/vscode.rpm"" ""https://code.visualstudio.com/sha/download?build=stable&os=linux-rpm-x64""
        
        # Install VS Code
        sudo dnf install -y ""$SCRIPT_DIR/vscode.rpm""
        
        # Clean up
        rm ""$SCRIPT_DIR/vscode.rpm""
        
    else
        echo ""Unsupported Linux distribution. Please install VS Code manually from https://code.visualstudio.com/""
        exit 1
    fi
    
    echo ""VS Code installed successfully!""
else
    echo ""VS Code is already installed.""
fi

# Create VS Code user directory if it doesn't exist
mkdir -p ""$VS_CODE_USER_DIR""
mkdir -p ""$VS_CODE_USER_DIR/snippets""

# Copy settings
echo ""Copying settings...""
cp ""$SETTINGS_DIR/settings.json"" ""$VS_CODE_USER_DIR/""
cp ""$SETTINGS_DIR/keybindings.json"" ""$VS_CODE_USER_DIR/""

# Copy snippets
echo ""Copying snippets...""
cp -R ""$SETTINGS_DIR/snippets/""* ""$VS_CODE_USER_DIR/snippets/""

# Install extensions
echo ""Installing extensions...""
"

  /** The closing lines of the macOS and Linux scripts (vscode_packager.py:475, 615). */
  const UnixFooter: string := @"
echo ""=== Setup completed successfully! ===""
echo ""VS Code is now configured with all your custom settings and extensions.""
echo ""Press any key to exit...""
read -n 1
"

  /** The closing lines of the Windows script (vscode_packager.py:533). */
  const WindowsFooter: string := @"
echo === Setup completed successfully! ===
echo VS Code is now configured with all your custom settings and extensions.
echo Press any key to exit...
pause
"
}
